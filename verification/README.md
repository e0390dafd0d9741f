# A verified model of the uni-agent and verl cores

This project models, in Dafny, the algorithmic and protocol cores of the repository and proves what
they promise, for all inputs, all runs and all interleavings. One module per component:

- `Resharding`, `PipelinePlan`, `LayerMerge`, `Experts`: converting attention, MLP and expert weights
  between the Hugging Face and Megatron layouts, and merging them back. A tensor is the sequence of its rows.
- `LogDispatch`: the log handler that hands records to a writer thread through a bounded queue, against a
  logger that writes at once.
- `Gateway`, `SessionLimit`: routing sessions to gateway actors and limiting sessions per runner. Every async
  method is cut at its awaits; a step is what happens between two of them.
- `Batch`, `Interleaving`, `RewardReadback`: running a batch of prompts, writing trajectories and status markers under printed
  keys, and reading one score per session back.
- `Dispatch`: padding, chunking and concatenating a batch over workers.
- `BusyTime`: busy time as the measure of a union of intervals, in integer ticks.
- `Text`, `Editor`: the string-replacement editor with its undo stacks, over exact string operations.
- `React`, `MemAgent`: the two agent loops; policies and tools are arbitrary functions that may also raise.
- `WorkQueue`: the resumable evaluation run with sentinels, a write lock and an append-only log.
- `Schema`, `DeepMerge`: the JSON-schema normalizer and the config merge.
- `Common`: options, results and a few facts about sums, products and concatenation.

Objects that the source mutates are classes; each method is tied to a function of the old state, and the
results over runs are lemmas about those functions.

Assumptions: steps between two awaits are atomic (one event loop); remote calls, storage writes, policies and
tools succeed or fail arbitrarily but a failed storage or file write changes nothing; a remote call that raises
has not acted at its gateway actor (a create that acted and then raised would leave a session there that the
manager has forgotten, so `Gateway.NoOrphan` and `Gateway.RouteAgreement` rest on this); session ids are fresh
and a session has one finalize or abort in flight; ids that are open in the logger at the same time use
different paths and file operations succeed there; appends to the evaluation log succeed.

Where code and documentation disagree, the code is modelled:

- The editor's description says a replacement is refused when `old_str` is not unique. Overlapping occurrences
  pass (`Text.OverlapCountsOnce`); the exact condition is `Editor.ReplacementSucceedsIff`. It also says `old_str`
  must match exactly, but tabs are expanded by column first, so a fragment copied from the middle of a line can
  be refused (`Editor.TabFragmentNotFound`); when a fragment is found is stated by `Editor.VerbatimFound` and
  `Text.FragmentReadsAloneIff`, and one with a carriage return never is (`Editor.CarriageReturnNotFound`).
- The pipeline planner promises a plan whenever there are enough layers; for three or more stages it can find
  none and fail on an empty list (`PipelinePlan.FiveLayersFourStages`, `PipelinePlan.PlannableIff`).
- The merger's layer offset counts an empty stage as one layer, so the round trip needs that no empty stage
  precedes a nonempty one (`LayerMerge.PartitionRoundTripIff`).
- A contiguous cut of the stacked gate and up rows is not what the merge undoes (`Resharding.ContiguousGateUpIff`).
- With padding enabled, `chunk` does not always give the requested number of chunks (`Dispatch.Chunk`, `Dispatch.FiveRowsFourWorkers`).
- A reversed interval (end before start) can make busy time smaller than the measure, even negative
  (`BusyTime.ExactIff`, `BusyTime.ReversedGoesNegative`).
- A prompt whose status write raises counts all its sessions as failed although their records are stored
  (`Batch.StatusWriteFails`; `Batch.NothingLost` states exactly when counters and stored records disagree).
- A uid with two or more underscores loses its status marker, and one that reads like another uid's record can
  overwrite it (`RewardReadback.MarkerRecognizedIff`, `RewardReadback.MarkerCanHideRecord`; the exact condition
  is `RewardReadback.KeysApartIff`).
- The schema normalizer drops a parameter named `title` (`Schema.TitleParameterDropped`).
- The deep merge is not associative in general (`DeepMerge.AssociativeByPathsIff`, `DeepMerge.NotAssociative`).

## Model

| member | source | states |
|---|---|---|
| `Resharding.QkvRoundTrip` | verl/scripts/legacy_model_merger.py:534-562 | For every head count, KV-group count, head size and tensor-parallel size (groups divide heads, ranks divide groups), interleaving q, k and v per group, cutting the rows contiguously over the ranks and merging gives back exactly q, k and v |
| `Resharding.MergeThenInterleave` | verl/scripts/legacy_model_merger.py:540-562 | The opposite round trip, with no condition on divisibility: whatever merging accepts on equally long shards, interleaving its result over the groups it saw (each rank's floored share; all KV groups exactly when the ranks divide them) gives the concatenated shards back |
| `Resharding.MergeSucceedsIff` | verl/scripts/legacy_model_merger.py:534-562 | On equally long shards merging succeeds exactly when the KV-head count is positive and divides the heads, there are shards and no more of them than KV heads, the fused rows divide by heads per group plus two, and a rank's group count divides its key rows |
| `Resharding.MergeRefuses` | verl/scripts/legacy_model_merger.py:534-562 | Which error each guard raises, in the order the guards are met; past them only a split can fail |
| `Resharding.ChunkCuts` | verl/scripts/legacy_model_merger.py:523-548 | torch.chunk cuts the rows in order into pieces of the rounded-up quotient, the last one shorter but not empty, or gives n empty pieces for no rows |
| `Resharding.InterleavedRows` | verl/scripts/converter_hf_to_mcore.py:155-161 | Where every single row lands: group g of the interleaved tensor is its query rows, then its key rows, then its value rows |
| `Resharding.TransposeIsInterleave` | verl/scripts/converter_hf_to_mcore.py:278-284 | The view/transpose/flatten form of a fused q,k,v tensor equals the per-group view/cat form |
| `Resharding.MergeQkvAcrossTp` | verl/scripts/legacy_model_merger.py:534-562 | The nested shard and chunk loops compute the specified merge, with each guard's error in the order the guards are met |
| `Resharding.SplitShards` | verl/scripts/legacy_model_merger.py:546-561 | The outer loop over shards concatenates all shards' query, key and value pieces in rank order, or stops at a piece of the wrong length |
| `Resharding.SplitChunks` | verl/scripts/legacy_model_merger.py:548-557 | The inner loop splits every chunk of a shard into the three lists, or fails on a chunk the sizes do not cover |
| `Resharding.GateUpRoundTrip` | verl/scripts/legacy_model_merger.py:523-533 | When each rank holds its slice of gate followed by its slice of up, merging returns gate and up for every number of ranks |
| `Resharding.ContiguousGateUpIff` | verl/scripts/legacy_model_merger.py:523-533 | A contiguous cut of the stacked [gate; up] rows is undone by the merge for all weights exactly when there is a single rank |
| `Resharding.GateUpMergesIff` | verl/scripts/legacy_model_merger.py:523-533 | For any shards: merging gate and up fails exactly without shards or on a shard of one row; otherwise the gate is the shards' upper halves in rank order, with the odd row, and the up their lower halves |
| `Resharding.MergeGateUpAcrossTp` | verl/scripts/legacy_model_merger.py:523-533 | The gate/up loop concatenates the halves of all shards in order, and fails on no shards or on one that does not cut in two |
| `PipelinePlan.PlanPipeline` | verl/verl/model_merger/megatron_model_merger.py:58-99 | Each error has its exact condition, including the failing index on an empty candidate list; an accepted plan has one positive size per stage and sums to the layer count, for two stages it is the two halves, and for more it has the least first-to-middle difference of all candidates and is the balanced plan |
| `PipelinePlan.LeastIsBalanced` | verl/verl/model_merger/megatron_model_merger.py:84-97 | The candidate with the least difference is always the same: every middle stage gets the layers per stage rounded up, first and last share the rest and the last gets the odd one |
| `PipelinePlan.PlannableIff` | verl/verl/model_merger/megatron_model_merger.py:82-97 | With three or more stages, some candidate exists exactly when a condition on layer and stage counts holds that a caller can check beforehand |
| `PipelinePlan.AcceptableBounds` | verl/verl/model_merger/megatron_model_merger.py:84-88 | The acceptable middle sizes are exactly the integers between two linear bounds |
| `PipelinePlan.ShardsArePlan` | verl/verl/model_merger/megatron_model_merger.py:89-94 | Every candidate that passes the guard is a real plan: positive stages that sum to the layer count |
| `PipelinePlan.FiveLayersFourStages` | verl/verl/model_merger/megatron_model_merger.py:68-97 | Five layers on four stages meet the documented requirement; no strategy is acceptable and planning fails on its empty list |
| `LayerMerge.PartitionRoundTripIff` | verl/scripts/legacy_model_merger.py:618-661 | Renumbering undoes the converter's partition of the layers exactly when no empty stage comes before a nonempty one |
| `LayerMerge.GaplessRoundTrip` | verl/scripts/legacy_model_merger.py:618-661 | Without such a gap every merged layer is the model's layer of that number, for any grid of virtual and pipeline stages in visiting order |
| `LayerMerge.GapMisnumbers` | verl/scripts/legacy_model_merger.py:622-661 | With a gap some layer of the model ends up under a wrong number |
| `LayerMerge.RenumberingInjective` | verl/scripts/legacy_model_merger.py:634-640 | No two layers of different stages ever get the same global number, gaps or not |
| `LayerMerge.MergedLayer` | verl/scripts/legacy_model_merger.py:634-648 | Each stage's layer is found under its shifted number; no later stage overwrites it |
| `LayerMerge.LayerOrigin` | verl/scripts/legacy_model_merger.py:634-648 | Every merged layer comes from some stage's layer: nothing is invented |
| `LayerMerge.OffsetVsStart` | verl/scripts/converter_hf_to_mcore.py:576-578 | The merger's running offset is at least the converter's start of the stage, and larger as soon as an empty stage was passed |
| `LayerMerge.MergeStage` | verl/scripts/legacy_model_merger.py:622-661 | One stage's loop over its keys, in any order: every name's new value, skipped keys ignored, and the largest local layer number reported |
| `LayerMerge.MergeStateDicts` | verl/scripts/legacy_model_merger.py:616-663 | The nested virtual-stage and pipeline loops leave, under every name, the value of the last stage that contributes it |
| `LayerMerge.VisitAt` | verl/scripts/legacy_model_merger.py:616-624 | The merger visits every stage once, virtual stage by virtual stage and rank by rank within one |
| `LayerMerge.OtherMerged` | verl/scripts/legacy_model_merger.py:641-661 | A parameter outside the layers keeps its name and has the value of the last stage that holds it; skipped keys are in no merged dictionary |
| `Experts.EveryExpertOwnedIff` | verl/scripts/converter_hf_to_mcore.py:183-192 | Every expert is owned by some rank exactly when the ranks divide the expert count |
| `Experts.OwnerUnique` | verl/scripts/converter_hf_to_mcore.py:183-192 | No expert has two owning ranks |
| `Experts.CopyExperts` | verl/scripts/converter_hf_to_mcore.py:419-434 | The expert loop copies exactly the rank's experts into local slots 0, 1, ... in order, and counts their elements |
| `Experts.CheckLayerNumel` | verl/scripts/converter_hf_to_mcore.py:448-451 | When the element check of a routed layer passes, fails, or has no local expert to measure with |
| `Experts.NumelAgreesIff` | verl/scripts/converter_hf_to_mcore.py:448-451 | The floored correction for the other ranks' experts is right exactly when the ranks divide the experts or the experts have no elements |
| `LogDispatch.MatchesImmediateLogger` | uni_agent/logging/handlers.py:110-200 | Over any interleaving of callers and writer, with nothing dropped and the queue drained, files plus buffers are those of a logger that writes at once; after a flush or the final close the disk is |
| `LogDispatch.FilesAreSubsequences` | uni_agent/logging/handlers.py:77-107 | In every state of every run, with any drops, what reached a file is an in-order subsequence of the lines emitted under ids registered for it |
| `LogDispatch.Conservation` | uni_agent/logging/handlers.py:101-128 | Every submitted operation is applied, still queued in order, or counted as dropped |
| `LogDispatch.DroppedIffFull` | uni_agent/logging/handlers.py:101-107 | In every reachable state a submitted open, write or close is dropped and counted exactly if the queue is full, and otherwise goes last |
| `LogDispatch.WriterAgrees` | uni_agent/logging/handlers.py:129-164 | In every reachable state the writer's files agree with the immediate logger run on the operations applied so far |
| `LogDispatch.ApplyRefines` | uni_agent/logging/handlers.py:129-164 | One open, write or close does to files and buffers what the immediate logger does to files |
| `LogDispatch.FlushIsDurable` | uni_agent/logging/handlers.py:166-172 | Flushing the dirty files, in any order, puts every line on disk |
| `LogDispatch.FlushedEachLine` | uni_agent/logging/handlers.py:145-164 | With a flush after each line the disk holds, in every state of every run, every line applied so far |
| `LogDispatch.FlushedByTimer` | uni_agent/logging/handlers.py:116-118 | A flush of the timer puts every line applied so far on disk and leaves no file dirty |
| `LogDispatch.WriterStops` | uni_agent/logging/handlers.py:110-128 | Once the stop item was queued the writer's own steps end it: it drains the queue, drops nothing and closes the files |
| `LogDispatch.ShutdownWritesAll` | uni_agent/logging/handlers.py:183-207 | A shutdown that finds room in the queue gets everything on disk: after the writer's own steps the files are the immediate logger's, if nothing was dropped |
| `LogDispatch.AcceptedIsSyncLog` | uni_agent/logging/handlers.py:77-107 | With no drops, the accepted operations are exactly those an immediate logger would be handed |
| `LogDispatch.AcceptedLines` | uni_agent/logging/handlers.py:87-107 | Whatever was dropped, the accepted operations never put a line in a file its id was not registered for |
| `LogDispatch.LogFileDispatch.Register` | uni_agent/logging/handlers.py:77-80 | The whole new state after registering an id, including a dropped open |
| `LogDispatch.LogFileDispatch.Unregister` | uni_agent/logging/handlers.py:82-85 | The whole new state after unregistering an id, including a dropped close |
| `LogDispatch.LogFileDispatch.Emit` | uni_agent/logging/handlers.py:87-99 | Only a formatted record of a registered id is submitted; otherwise nothing changes |
| `LogDispatch.LogFileDispatch.SubmitOp` | uni_agent/logging/handlers.py:101-107 | A full queue drops and counts; otherwise the operation goes last |
| `LogDispatch.LogFileDispatch.TakeNext` | uni_agent/logging/handlers.py:115-124 | The writer takes the oldest item and applies it, or starts draining at the stop item |
| `LogDispatch.LogFileDispatch.FlushDirty` | uni_agent/logging/handlers.py:166-172 | Every dirty file is flushed exactly once, in the order a set yields them, and none is dirty afterwards |
| `LogDispatch.LogFileDispatch.FlushTimer` | uni_agent/logging/handlers.py:116-118 | The timer's flush is a flush step of the protocol |
| `LogDispatch.LogFileDispatch.Finish` | uni_agent/logging/handlers.py:183-200 | The final flush and close leave no open file and stop the writer |
| `LogDispatch.LogFileDispatch.Shutdown` | uni_agent/logging/handlers.py:202-207 | The stop item is queued unless the queue is full |
| `Gateway.PeakLoadBound` | uni_agent/gateway/manager.py:60-107 | In every reachable state of every interleaving each counter is the number of sessions routed to its gateway, and none exceeds the rounded-up share of the sessions reserved at some point of the run |
| `Gateway.RouteAgreement` | uni_agent/gateway/gateway.py:235-279 | A session whose create returned is, until its finalize or abort takes effect, in exactly the table of the actor the manager routes it to |
| `Gateway.NoOrphan` | uni_agent/gateway/gateway.py:251-279 | No actor's table ever holds a session the manager does not route to it |
| `Gateway.AbortIdempotent` | uni_agent/gateway/gateway.py:273-279 | In every run, once an abort or finalize took effect, further calls for the session change nothing, it stays removed whatever other sessions do, and an abort that still reaches the actor returns quietly |
| `Gateway.FailedFinalizeIsAbortable` | uni_agent/gateway/gateway.py:266-279 | In every run, after a finalize that raised any number of aborts may raise too, and the first that acts removes the session from every table and from the routes, with any steps of other sessions in between |
| `Gateway.SessionsIndependent` | uni_agent/gateway/manager.py:75-107 | In every run where a session stands depends on its own calls only: no interleaving of other sessions' calls disturbs it |
| `Gateway.CallsLead` | uni_agent/gateway/manager.py:75-107 | What each call comes to whatever other sessions do: a create that raises leaves nothing behind, a finalize or abort that raises leaves the session live, and otherwise they end it |
| `Gateway.LeastLoaded` | uni_agent/gateway/manager.py:60-63 | The chosen gateway is the first one with the least load |
| `Gateway.ReserveBound` | uni_agent/gateway/manager.py:77-86 | Reserving on a least-loaded gateway cannot push it above the rounded-up average |
| `Gateway.ReserveCounted` | uni_agent/gateway/manager.py:85-86 | Reserving keeps every counter equal to the sessions routed there |
| `Gateway.ReleaseCounted` | uni_agent/gateway/manager.py:89-107 | Releasing a routed session keeps every counter equal to the sessions routed there |
| `Gateway.GatewayManager.SelectGatewayIndex` | uni_agent/gateway/manager.py:60-63 | The selection loop finds the first least-loaded gateway, or reports that there is none |
| `Gateway.GatewayManager.BeginCreateSession` | uni_agent/gateway/manager.py:75-86 | Route and counter are both reserved before the await, or nothing changes when there is no gateway |
| `Gateway.GatewayManager.RollBackCreate` | uni_agent/gateway/manager.py:89-92 | A failed create gives back exactly what was reserved |
| `Gateway.LookupFindsSession` | uni_agent/gateway/manager.py:65-73 | In every reachable state the lookup finds a gateway exactly while the session is between its create and its release; it is the one its pending call will release and, while the session is live, the only one whose actor has it; otherwise it is the key error |
| `Gateway.GatewayManager.EndRelease` | uni_agent/gateway/manager.py:94-107 | Finalize and abort release the route and the counter of the gateway looked up before the await |
| `Gateway.GatewayActor.CreateSession` | uni_agent/gateway/gateway.py:235-259 | A started actor inserts a new session; a duplicate, or an actor not started, is refused and changes nothing |
| `Gateway.GatewayActor.FinalizeSession` | uni_agent/gateway/gateway.py:266-271 | A session leaves the table exactly if it was there and its own finalize returned |
| `Gateway.GatewayActor.AbortSession` | uni_agent/gateway/gateway.py:273-279 | A missing session is no error; a session leaves the table exactly if its own abort returns |
| `SessionLimit.CapHolds` | uni_agent/framework/framework.py:611-633 | In every reachable state at most max_concurrent_sessions sessions of a limited runner are inside _run_session |
| `SessionLimit.EntersIffRoom` | uni_agent/framework/framework.py:607-633 | In every reachable state a waiting session gets in exactly if fewer sessions of its runner are inside than its cap allows, and one of an unlimited runner never waits |
| `SessionLimit.NoDeadlock` | uni_agent/framework/framework.py:611-706 | In every reachable state in which a session task has not returned, some step other than a new arrival changes the state: waiting for a permit is always waiting for a task that can move |
| `SessionLimit.CanReturn` | uni_agent/framework/framework.py:611-706 | Wherever a run stands every session task can still return, at the latest after another task of its runner has left |
| `SessionLimit.CourseHolds` | uni_agent/framework/framework.py:662-706 | In every reachable state where each outcome leads a session: a create that raises leaves with nothing routed, a finished runner is finalized and a failed one aborted, a finalize that raises is aborted, and an abort ends it or leaves it routed |
| `SessionLimit.CapBoundsLoad` | uni_agent/framework/framework.py:662-706 | With one runner of cap C, no gateway ever holds more than the rounded-up share of C plus the sessions whose abort failed |
| `SessionLimit.LeakedAreFailedAborts` | uni_agent/framework/framework.py:694-697 | The extra term counts exactly the failed aborts, so without them the bound is the share of C |
| `SessionLimit.ReservedBound` | uni_agent/framework/framework.py:623-706 | The sessions reserved at the gateway are those inside _run_session and those a failed abort left behind |
| `SessionLimit.RunInv` | uni_agent/framework/framework.py:611-706 | In every reachable state free permits and sessions inside add up to the cap, and every routed session belongs to a coroutine at the matching point of its lifecycle |
| `SessionLimit.RunnerLimits.Request` | uni_agent/framework/framework.py:607-623 | An unlimited runner's session goes straight in; otherwise the semaphore is found or created once and the session waits |
| `SessionLimit.RunnerLimits.TryAcquire` | uni_agent/framework/framework.py:624-633 | A waiting session is let in exactly when fewer sessions of its runner are inside than its cap |
| `SessionLimit.RunnerLimits.Return` | uni_agent/framework/framework.py:624-633 | Leaving, by return or exception, gives the permit back |
| `Batch.RunBatch` | uni_agent/framework/framework.py:430-484 | Without a control-flow exception successes plus failures are prompts times sessions and the counters describe exactly what the prompts that returned wrote; the log is any interleaving of the prompts' writes, and the error cases are exact |
| `Batch.RunPrompt` | uni_agent/framework/framework.py:486-574 | A prompt's writes are its successful sessions' records in order and one status marker last; its counters describe that log and each session is counted once |
| `Batch.PromptLogIs` | uni_agent/framework/framework.py:516-574 | A prompt whose setup fails writes nothing; else each stored session before the first control-flow exception writes its own trajectories under its index, in order, every other one has its own reason at its place, and a status marker comes last exactly if nothing interrupted and its write succeeds |
| `Batch.WriteSessions` | uni_agent/framework/framework.py:516-555 | The session loop writes, counts and stops at the first control-flow exception, as specified |
| `Batch.CountSession` | uni_agent/framework/framework.py:525-555 | One turn of that loop: a written session is logged and counted with its records, any other is counted as failed with its reason |
| `Batch.FinishedMarker` | uni_agent/framework/framework.py:557-562 | A uid is marked finished exactly when its prompt returned and wrote at least one record |
| `Batch.MarkerIsLast` | uni_agent/framework/framework.py:557-562 | A status marker comes only from a prompt that returned, after all its session writes |
| `Batch.NothingLost` | uni_agent/framework/framework.py:469-483 | The counters never claim more than is stored, and they leave no record and no written session out exactly when no prompt raised after one of its sessions was written |
| `Batch.StatusWriteFails` | uni_agent/framework/framework.py:557-562 | One prompt with a written session whose status write raises: the record is stored, and every admissible summary reports no successful session and no output |
| `Batch.InterleavedTally` | uni_agent/framework/framework.py:447-456 | However the prompts' writes interleave, the log holds as many sessions, records, unfinished episodes and finished marks as the prompts' logs one after the other |
| `Batch.TallyWeights` | uni_agent/framework/framework.py:525-555 | What is counted of a log: one session per write, its records, one unfinished episode per write with a trajectory that is marked not finished, and the finished marks |
| `Batch.GenerateSequences` | uni_agent/framework/framework.py:404-428 | generate_sequences raises that all rollouts failed exactly when no prompt that returned wrote a record |
| `Batch.Summarize` | uni_agent/framework/framework.py:458-484 | The loop over prompt outcomes adds up to counters that describe the returned prompts' log; a raised prompt counts all its sessions as failed |
| `Batch.AddOutcome` | uni_agent/framework/framework.py:467-483 | One turn of that loop keeps the counters in step with the returned prompts' log, or stops at a control-flow outcome |
| `Batch.Gather` | uni_agent/framework/framework.py:447-456 | The prompts' writes interleave in any way that keeps each prompt's own order, and every prompt runs to its end before any outcome is looked at |
| `Interleaving.Interleave` | uni_agent/framework/framework.py:447-456 | Whichever prompt the event loop lets write next, the resulting log is an interleaving of the prompts' own logs |
| `Interleaving.SameWeight` | uni_agent/framework/framework.py:447-456 | Any sum over the events of an interleaved log equals the sum over the logs one after the other |
| `Batch.SelectTrajectories` | uni_agent/framework/framework.py:143-168 | The kept trajectory has the most model tokens, among those the longest response, among those the most turns, and among those it comes last; without selection all are kept |
| `Batch.FinishSession` | uni_agent/framework/framework.py:698-736 | After finalize: selection, then one score for every kept trajectory, posted by the runner or else given by the reward worker, or an empty or unscored result, or the worker's error |
| `Batch.EndScores` | uni_agent/framework/framework.py:698-736 | A session raises exactly if its last kept trajectory has no posted reward and the reward worker raises; else every kept trajectory gets the posted reward, or the worker's score, or keeps its own |
| `RewardReadback.ScorePerSession` | examples/inference/parallel_infer_verl.py:171-213 | For any well-keyed log, the reader returns exactly one score per written session of the wanted uids, and it is the reward on that session's last trajectory, or zero if that has none or an empty response |
| `RewardReadback.ScoresMatchStats` | examples/inference/parallel_infer_verl.py:188-213 | For uids that keep the keys apart and any order of the writes, at least as many scores are read back as the batch counted successful sessions, and exactly as many if and only if no prompt raised after one of its sessions was written |
| `RewardReadback.PostedRewardRead` | uni_agent/framework/framework.py:811-827 | The score read back for a session is the reward its runner posted on the last kept trajectory, else the reward worker's score, else the score it came with, else zero; zero also if that response is empty |
| `RewardReadback.StatusMatchesBatch` | examples/inference/parallel_infer_verl.py:183-187 | For distinct uids and any order of the writes, a status is read back for a prompt exactly if it returned and its uid has at most one underscore, and it says whether a record was written |
| `RewardReadback.BatchWellKeyed` | uni_agent/framework/framework.py:888-908 | If no uid of the batch reads like a record key of another (one of its sessions, any index) and the uids differ, all keys of the batch stay apart in every interleaving of its writes |
| `RewardReadback.KeysApartIff` | uni_agent/framework/framework.py:888-908 | That condition on uids and session count is exact: it holds if and only if every run of such a batch, in every order of its writes, keeps every record as written |
| `RewardReadback.PlainUidsApart` | examples/inference/parallel_infer_verl.py:183-184 | Distinct uids with at most one underscore, such as UUIDs, meet the condition for every session count |
| `RewardReadback.KeyRoundTrip` | uni_agent/framework/framework.py:899-900 | For any uid, splitting a printed key at its last two underscores and parsing the index gives back what was printed |
| `RewardReadback.ParsePadded` | examples/inference/parallel_infer_verl.py:191-196 | A signed and padded index parses to its value |
| `RewardReadback.ValueFirst` | uni_agent/framework/framework.py:899-900 | Printed digits count by powers of ten |
| `RewardReadback.KeyInjective` | uni_agent/framework/framework.py:899-900 | Different uid, session or index print different keys |
| `RewardReadback.MarkerRecognizedIff` | examples/inference/parallel_infer_verl.py:182-187 | A uid's status marker is told from a record exactly when the uid has at most one underscore |
| `RewardReadback.MarkerCanHideRecord` | examples/inference/parallel_infer_verl.py:182-190 | A concrete log in which the status marker of one uid overwrites another uid's record, which is then no longer read as a success |
| `RewardReadback.ReadScores` | examples/inference/parallel_infer_verl.py:171-222 | For any listing order: sessions sorted and distinct, each with its last record's summed score, grouped by uid, and the statuses of the recognized markers |
| `RewardReadback.Collect` | examples/inference/parallel_infer_verl.py:176-200 | The listing loop keeps, per session, the record with the largest index, and the status of every recognized marker |
| `RewardReadback.SortSessions` | examples/inference/parallel_infer_verl.py:202-205 | The sessions in lexicographic order, each once |
| `RewardReadback.SortedBy` | examples/inference/parallel_infer_verl.py:202-205 | Sessions come in the order of their uids, and within a uid of the text of their session index: proper prefixes first, else by the first difference |
| `RewardReadback.SortedUnique` | examples/inference/parallel_infer_verl.py:202-205 | The sorted list is determined by the set of sessions, so the result does not depend on the listing order |
| `RewardReadback.Fetch` | examples/inference/parallel_infer_verl.py:209-211 | Each score is the token sum of the chosen record of the session at the same position |
| `RewardReadback.GroupByUid` | examples/inference/parallel_infer_verl.py:207-213 | Each uid's scores are those of its sessions, in order |
| `RewardReadback.PerUidScores` | examples/inference/parallel_infer_verl.py:207-213 | A uid is in the result exactly if it has a session, and its list has one score for each of them, in their order |
| `RewardReadback.StoreHas` | uni_agent/framework/framework.py:878-908 | A written record stays in the partition until the end of the batch |
| `RewardReadback.StoredScores` | uni_agent/framework/framework.py:878-964 | Under uid_session_index the partition holds one score per response token of that trajectory: its reward on the last token and zero on every other |
| `RewardReadback.RmScoresSum` | uni_agent/framework/framework.py:961-964 | A record's scores, placed as StoredScores says, sum to its reward, or to zero without one or with an empty response |
| `RewardReadback.SumRealsAdds` | examples/inference/parallel_infer_verl.py:209-211 | The token sum of joined rows is the sum of their token sums, and of one token its score |
| `Dispatch.DispatchCompute` | verl/verl/protocol.py:74-106 | For every nonempty batch, worker count and computation that maps rows to rows, adding or dropping any columns or the tensors, padding, chunking, computing per worker, concatenating and unpadding equals computing the batch in one place, row by row |
| `Dispatch.PadToDivisor` | verl/verl/protocol.py:74-99 | The pad size is the least that makes the length divisible and the padded batch is the batch read cyclically; the loop terminates |
| `Dispatch.PaddingParts` | verl/verl/protocol.py:84-93 | The padding loop's parts, joined, are the batch read cyclically |
| `Dispatch.CyclicRow` | verl/verl/protocol.py:84-93 | Padded row i is row i mod n in every tensor and object column alike |
| `Dispatch.Chunk` | verl/verl/protocol.py:864-903 | Each error and success of chunk has its exact condition: zero chunks, rows that do not divide without padding, tensors whose first k - 1 full chunks leave no rows; otherwise chunk i is the i-th slice of every column |
| `Dispatch.TorchChunk` | verl/verl/protocol.py:880-883 | The tensor cut points, and that there are k chunks exactly when the first k - 1 full chunks leave rows over |
| `Dispatch.PieceSizes` | verl/verl/protocol.py:880-894 | Every chunk's length: with tensors the rounded-up quotient as long as rows last; without, the quotient and one more for the first rows mod k chunks |
| `Dispatch.PieceRows` | verl/verl/protocol.py:880-903 | Row r of a chunk is the batch's row that has the rows of all chunks before it and r more in front |
| `Dispatch.FiveRowsFourWorkers` | verl/verl/protocol.py:873-894 | With padding enabled chunking five rows with tensors for four workers raises, while five object-only rows are chunked |
| `Dispatch.ChunksJoin` | verl/verl/protocol.py:917-961 | Concatenating the chunks of a batch gives the batch back |
| `Dispatch.Concat` | verl/verl/protocol.py:917-961 | For parts with any columns each error has its exact condition (no parts, differing tensors, a new object column, a short object column beside tensors); otherwise every column of the first part is joined over all parts in order |
| `Dispatch.WorkedPieces` | verl/verl/protocol.py:864-903 | The workers' outputs are the chunks of the whole output, also when the computation adds or drops the tensors, by which chunks are cut differently |
| `Dispatch.SliceLaw` | verl/verl/protocol.py:675-719 | Computing a nonempty slice row by row is slicing the computed batch, columns included |
| `Dispatch.UnpadComputed` | verl/verl/protocol.py:102-106 | Unpadding a computation of the padded batch leaves the computation of the original rows |
| `Dispatch.FutureGet` | verl/verl/protocol.py:1197-1228 | A chunked future yields the matching piece of its workers' concatenated outputs, and always does when the rows divide evenly |
| `BusyTime.UnionSeconds` | tools/analyze_rollout_gpu_memory.py:73-80 | For any intervals in any order the result is the number of covered ticks less what unsheltered reversed intervals take off; the merged list is ordered with gaps, covers the same ticks and has that total length |
| `BusyTime.ExactIff` | tools/analyze_rollout_gpu_memory.py:73-80 | The result is the measure of the union exactly when every reversed interval begins inside (or at the end of) one that begins earlier |
| `BusyTime.ProperExact` | tools/analyze_rollout_gpu_memory.py:73-80 | With no reversed interval the result is the number of covered ticks |
| `BusyTime.ReversedGoesNegative` | tools/analyze_rollout_gpu_memory.py:73-80 | A lone reversed interval makes the busy time negative |
| `BusyTime.BusyOrder` | tools/analyze_rollout_gpu_memory.py:81-89 | Cluster busy time is at most the sum of the replicas' busy times, which is at most the sum of the request durations |
| `BusyTime.ReplicaAtMostCluster` | tools/analyze_rollout_gpu_memory.py:81-89 | No replica is busier than the cluster |
| `BusyTime.RequestBusy` | tools/analyze_rollout_gpu_memory.py:81-89 | Cluster and summed replica busy time from the request rows, every replica counted once |
| `BusyTime.GroupByReplica` | tools/analyze_rollout_gpu_memory.py:83-87 | Each replica's list holds its recorded intervals in row order, and only replicas with one are listed |
| `BusyTime.MergesTo` | tools/analyze_rollout_gpu_memory.py:74-79 | After each turn of the merge loop the blocks are separated, cover exactly the ticks seen so far and have the right total length |
| `BusyTime.BusyPermuted` | tools/analyze_rollout_gpu_memory.py:75 | The measure does not depend on the order of the intervals |
| `Editor.UndoRestores` | uni_agent/tools/edit_file.py:224-320 | After any run whose edits of a path are all undone, with any failures and other paths' edits between, the file is untouched or holds its original text with tabs expanded and newlines normalized (empty if it did not exist) |
| `Editor.UndoRestoresExactlyIff` | uni_agent/tools/edit_file.py:224-320 | After such a run the file is exactly as before if and only if nothing edited it or its text had no tab and no carriage return |
| `Editor.EditsThenUndos` | uni_agent/tools/edit_file.py:224-320 | k successful edits followed by k undos bring the original text and the original history back |
| `Editor.FailureChangesNothing` | uni_agent/tools/edit_file.py:134-320 | A command that does not report success changes neither files nor history |
| `Editor.OtherPathsUntouched` | uni_agent/tools/edit_file.py:224-320 | A command leaves every other path and its history alone |
| `Editor.CreateDoes` | uni_agent/tools/edit_file.py:134-232 | A create reports success exactly if the text is given, the path is nonempty, new and does not end in a slash, its parent is a directory and the write succeeds; then the file holds that text as given and an empty text is saved |
| `Editor.ParentOf` | uni_agent/tools/edit_file.py:227 | The parent of a path is what comes before the slashes in front of its last name, or those slashes, or the root |
| `Editor.ReplacementSplices` | uni_agent/tools/edit_file.py:234-256 | A successful replacement is a splice of the expanded new text at the leftmost occurrence and saves the text it replaced |
| `Editor.ReplacementSucceedsIff` | uni_agent/tools/edit_file.py:134-255 | A replacement goes through exactly on a text file, with a nonempty old text of which no second occurrence starts after the leftmost one ends, a new text that differs and a write that succeeds |
| `Editor.InsertSucceedsIff` | uni_agent/tools/edit_file.py:272-299 | An insert goes through exactly on a text file, with a new text, a line number from zero to the number of lines and a write that succeeds |
| `Editor.InsertionSplicesLines` | uni_agent/tools/edit_file.py:272-299 | A successful insert puts the new lines after line k, changes no other line and saves the text as read |
| `Editor.UndoDoes` | uni_agent/tools/edit_file.py:314-320 | An undo goes through exactly if the file exists and has saved text and the write succeeds; it writes the text saved last and forgets it |
| `Editor.VerbatimFound` | uni_agent/tools/edit_file.py:239-244 | A verbatim fragment of a file's text, newlines normalized, is never reported as not appearing if it starts at a column divisible by eight or its first line has no tab |
| `Editor.LinesFound` | uni_agent/tools/edit_file.py:239-244 | In particular a verbatim fragment that starts a line is never reported as not appearing |
| `Editor.TabFragmentNotFound` | uni_agent/tools/edit_file.py:239-244 | Elsewhere a fragment with a tab can be refused as not appearing although the file contains it verbatim |
| `Editor.CarriageReturnNotFound` | uni_agent/tools/edit_file.py:121-127 | An old_str with a carriage return is always refused as not appearing, because only the file's newlines are normalized |
| `Editor.DoneIsEditOrUndo` | uni_agent/tools/edit_file.py:224-320 | Every success either saves the file's text and writes a new one, or writes the last saved text and forgets it |
| `Editor.ApplyUndoable` | uni_agent/tools/edit_file.py:224-320 | No command that stays at or above a history depth changes what undoing down to that depth would leave |
| `Editor.EditFileTool.Run` | uni_agent/tools/edit_file.py:134-168 | Every command's outcome and its whole effect on files and history, in the order the source checks arguments and paths |
| `Editor.EditFileTool.CreateFile` | uni_agent/tools/edit_file.py:224-232 | The method is the create whose condition and effect Editor.CreateDoes states |
| `Editor.EditFileTool.ReplaceString` | uni_agent/tools/edit_file.py:234-256 | Replacement's refusals in order, and its effect on file and history |
| `Editor.EditFileTool.InsertLines` | uni_agent/tools/edit_file.py:272-299 | Insert's refusals in order, and its effect on file and history |
| `Editor.EditFileTool.UndoEdit` | uni_agent/tools/edit_file.py:314-320 | Undo writes the last saved text and removes it, or reports that there is none |
| `Text.CountOneIff` | uni_agent/tools/edit_file.py:243-244 | A count of one means only that no second occurrence starts at or after the end of the leftmost one |
| `Text.OverlapCountsOnce` | uni_agent/tools/edit_file.py:243-251 | Two overlapping occurrences count once, so the uniqueness check lets them through |
| `Text.ReplaceIsSplice` | uni_agent/tools/edit_file.py:255 | Replacing a text that counts once splices at its leftmost occurrence |
| `Text.FragmentReadsAloneIff` | uni_agent/tools/edit_file.py:239-240 | A fragment expands inside a text to what it expands to on its own exactly if its column is divisible by eight or its first line has no tab |
| `Text.ExpandAppend` | uni_agent/tools/edit_file.py:239-240 | Text after a prefix is expanded from the column the prefix ends at |
| `Text.NormalClean` | uni_agent/tools/edit_file.py:121-127 | Text as an edit reads it has no tab and no carriage return |
| `Text.NewlinesAre` | uni_agent/tools/edit_file.py:127 | The two replacements turn every carriage return into a newline, together with a newline right after it |
| `Text.NormalFixed` | uni_agent/tools/edit_file.py:121-127 | Text without tabs and carriage returns is read unchanged, so reading twice is reading once |
| `Text.SplitJoin` | uni_agent/tools/edit_file.py:281-297 | Splitting joined lines gives the lines back |
| `Text.JoinSplit` | uni_agent/tools/edit_file.py:281-297 | Joining the lines of a text gives the text back |
| `Text.InsertIsLineSplice` | uni_agent/tools/edit_file.py:290-298 | Inserting lines into the line list is inserting them into the text |
| `React.Episode` | uni_agent/agents/react/agent.py:86-109 | From a well-formed prompt, for every policy and tool behaviour, every query sees a transcript in which each tool call is answered once, in order, before the next assistant message; steps and timeouts keep their budgets |
| `React.LoopWellFormed` | uni_agent/agents/react/agent.py:86-98 | The final transcript is well-formed exactly unless the token limit left calls pending or a tool raised |
| `React.StepWellFormed` | uni_agent/agents/react/agent.py:111-205 | One step makes at most one query, on the transcript it was given, and keeps it well-formed with exactly those exceptions |
| `React.DispatchRuns` | uni_agent/agents/react/agent.py:159-205 | For every dispatch there is an n: call k < n is answered with exactly its tool's observation and counted by its status; it stops at a tool that raises, after the last call, or where the timeouts first exceed the budget, and only then the later calls are answered, with the fixed skipped text; finished exactly if a finish tool succeeded |
| `React.StepDoes` | uni_agent/agents/react/agent.py:111-205 | One turn: nothing if the tokens are spent; else one query with the least of the limits, the reply as it came, and then the token limit, a finish for a reply without calls, or the dispatch of its calls |
| `React.LoopTurns` | uni_agent/agents/react/agent.py:86-98 | A run takes turns as long as they complete and there are fewer than max_steps, and ends as its last turn did, or at max_steps exactly after max_steps completed turns |
| `React.DispatchAdds` | uni_agent/agents/react/agent.py:159-202 | The dispatch adds one answer per call, same id and name, same order, skipped calls included, and fewer only if a tool raised; their texts are those of React.DispatchRuns |
| `React.LoopBudgets` | uni_agent/agents/react/agent.py:86-98 | Steps never exceed max_steps and timeouts exceed the budget by at most one, also for nonpositive budgets |
| `React.ReActAgent.Run` | uni_agent/agents/react/agent.py:85-109 | The result is finished exactly when the last step returned finished and entering and leaving the toolbox did not raise; transcript and counters are those of the specified loop |
| `React.ReActAgent.StepOnce` | uni_agent/agents/react/agent.py:111-205 | One turn's query limit, transcript, counters and stop reason, in the order the source decides them |
| `React.ReActAgent.RunCalls` | uni_agent/agents/react/agent.py:159-205 | The loop is the dispatch whose answers, counters and stop React.DispatchRuns states |
| `React.ReActAgent.FillSkipped` | uni_agent/agents/react/agent.py:191-199 | Every remaining call gets exactly one skipped answer |
| `MemAgent.RunInv` | uni_agent/agents/mem_agent/agent.py:191-272 | Over any sequence of calls, total steps are recorded turns plus failed calls, every collected segment is nonempty and its messages are its prompt plus one assistant message per turn, and tokens spent are the turns' tokens |
| `MemAgent.ClosedConservation` | uni_agent/agents/mem_agent/agent.py:155-168 | After the session closes, all turns and tokens are in the trajectory |
| `MemAgent.StepBound` | uni_agent/agents/mem_agent/agent.py:213-217 | The number of calls never exceeds max_steps |
| `MemAgent.TokenBound` | uni_agent/agents/mem_agent/agent.py:277-290 | If every reply keeps to the requested max_tokens, completion tokens never exceed max_total_tokens |
| `MemAgent.CallDoes` | uni_agent/agents/mem_agent/agent.py:204-235 | What one call refuses and in which order, the tokens it requests, and exactly what a reply or an error changes |
| `MemAgent.AnswerShape` | uni_agent/agents/mem_agent/agent.py:292-340 | A normal run reads min(chunks, max_chunks) chunks in order and then asks for the answer, one single-turn segment each: its prompt carries the previous segment's response, or No previous memory for the first one and after an empty response, its turn is the policy's reply to that prompt within the remaining tokens, and the answer is the last reply |
| `MemAgent.ReadShape` | uni_agent/agents/mem_agent/agent.py:309-326 | After n chunks there are n such segments, the tokens spent are theirs, and the memory carried on is the last response, or No previous memory if that is empty |
| `MemAgent.AnswerFails` | uni_agent/agents/mem_agent/agent.py:204-235 | A run fails only at a call that must be refused: the segments before it are as they should be, and the steps or the tokens are used up or the policy raises on its prompt |
| `MemAgent.AnswerWithinBudgets` | uni_agent/agents/mem_agent/agent.py:292-340 | A finished chunk run is one of the call sequences above, so its segments are at most max_steps and, if replies keep to what was requested, its completion tokens at most max_total_tokens |
| `MemAgent.MemAgent.Run` | uni_agent/agents/mem_agent/agent.py:292-340 | run returns exactly when every call of the chunk chain succeeds within the budgets, and then reports that chain's segments, response and counts |
| `MemAgent.MemAgent.ReadChunks` | uni_agent/agents/mem_agent/agent.py:310-326 | The chunk loop follows the chain that MemAgent.ReadShape describes and stops at the first call that raises |
| `MemAgent.MemAgent.AskOnce` | uni_agent/agents/mem_agent/agent.py:325-327 | One fresh context with one call extends the chain by one single-turn segment, or leaves what was collected |
| `MemAgent.MemAgent.StepOnce` | uni_agent/agents/mem_agent/agent.py:204-235 | One call's refusals in order, its requested token limit and its effect on every field |
| `MemAgent.MemAgent.UpdateContext` | uni_agent/agents/mem_agent/agent.py:191-202 | The current segment is collected if it has turns, and a new one starts from the given messages |
| `MemAgent.MemAgent.CollectContextStep` | uni_agent/agents/mem_agent/agent.py:266-272 | A segment is kept with its messages exactly if it has turns |
| `WorkQueue.AllDoneOnce` | examples/mem_agent/infer.py:258-307 | In every interleaving, once all workers have exited each has consumed exactly one sentinel and every pending sample is done exactly as often as it was pending |
| `WorkQueue.TakenOnce` | examples/mem_agent/infer.py:266-272 | In every state of every interleaving the samples dequeued are the first pending ones in order, and none is dequeued or finished twice |
| `WorkQueue.JoinEnabledIff` | examples/mem_agent/infer.py:304-307 | In every state of every interleaving queue.join() can return exactly when all workers have exited |
| `WorkQueue.ReplayWhenFree` | examples/mem_agent/infer.py:283-287 | In every state of every interleaving in which the write lock is free, the in-memory map is what loading the log file gives |
| `WorkQueue.ResumeRetries` | examples/mem_agent/infer.py:227-238 | Interrupted in any state, the log still loads, and the next run takes up exactly the selected samples with no record in it or whose last record there has an error |
| `WorkQueue.ResumeBySample` | examples/mem_agent/infer.py:227-238 | With distinct sample keys, after an interruption in any state a sample is taken up again exactly if it was pending and this run has not logged it without error |
| `WorkQueue.OneLineEach` | examples/mem_agent/infer.py:283-286 | In every reachable state the log is the old one plus at most one line for each pending sample, under its own key |
| `WorkQueue.LoggedOutcome` | examples/mem_agent/infer.py:273-287 | In every reachable state each line a run has added carries the error, or its absence, that the run of that sample ended with |
| `WorkQueue.ResumeRetriesErrors` | examples/mem_agent/infer.py:227-238 | After a completed run the next one retries exactly the selected samples whose last record failed |
| `WorkQueue.RunInv` | examples/mem_agent/infer.py:258-303 | Queue order, sentinel and item counts, lock exclusivity and log replay hold in every reachable state |
| `WorkQueue.Progress` | examples/mem_agent/infer.py:266-303 | In every state of every interleaving some step is enabled until all workers have exited: no deadlock |
| `WorkQueue.StepDecreases` | examples/mem_agent/infer.py:266-303 | Every enabled step uses up some of a finite amount of work, so every run ends |
| `WorkQueue.CanFinish` | examples/mem_agent/infer.py:258-307 | Wherever an interleaving stands, it can go on until all workers have exited |
| `WorkQueue.LoadLatestResults` | examples/mem_agent/infer.py:58-73 | Loading the log gives the replayed map, or the error of the first bad line |
| `WorkQueue.LoadFailsIff` | examples/mem_agent/infer.py:58-73 | Loading succeeds exactly if every line is blank or a JSON object, and fails with the number of the first line that is not |
| `WorkQueue.LoadKeepsLast` | examples/mem_agent/infer.py:58-73 | A key's loaded record is the last one logged for it, and keys never logged have none |
| `WorkQueue.Pending` | examples/mem_agent/infer.py:230-238 | The pending list is computed from the loaded map |
| `WorkQueue.PendingExactly` | examples/mem_agent/infer.py:230-238 | Pending lists, in order and once each, exactly the samples with no record or a last record with an error |
| `WorkQueue.RunRecorded` | examples/mem_agent/infer.py:273-287 | Every finished sample has a record under its own key, and no key loses its record |
| `WorkQueue.Evaluation.constructor` | examples/mem_agent/infer.py:258-264 | There are as many workers as the concurrency or the pending samples, whichever are fewer, but one without samples; the queue starts with the pending samples in order and one sentinel per worker |
| `WorkQueue.Evaluation.GetItem` | examples/mem_agent/infer.py:269-272 | Dequeuing hands a worker the oldest sample, or ends it on a sentinel |
| `WorkQueue.Evaluation.FinishRun` | examples/mem_agent/infer.py:273-281 | A worker's record carries its sample's key and the error of the run |
| `WorkQueue.Evaluation.TakeLock` | examples/mem_agent/infer.py:283 | Only one worker holds the write lock |
| `WorkQueue.Evaluation.WriteLine` | examples/mem_agent/infer.py:284-286 | The record is appended as the last line of the log |
| `WorkQueue.Evaluation.PublishRecord` | examples/mem_agent/infer.py:287 | The record becomes the key's latest and the lock is released |
| `WorkQueue.Evaluation.TaskDone` | examples/mem_agent/infer.py:288-302 | The sample counts as completed and one unfinished item is gone |
| `Schema.NormalizeCanonical` | uni_agent/tools/base.py:78-118 | For every JSON tree the output has, at every depth, no title key, no null default, no anyOf that collapses, and the preferred keys first |
| `Schema.NormalizeFixedIff` | uni_agent/tools/base.py:78-118 | Normalizing leaves a tree unchanged, key order included, exactly when it is in that form; so normalizing twice is normalizing once |
| `Schema.CanonicalFixed` | uni_agent/tools/base.py:78-118 | A canonical tree is already normal |
| `Schema.NormalizeLookup` | uni_agent/tools/base.py:90-118 | Field by field: titles and null defaults go; if, once normalized, the list under anyOf has one entry besides the literal null type and that is an object, anyOf goes, its fields come in and the fields beside it win; in every other case each field is kept, normalized |
| `Schema.CollapseIs` | uni_agent/tools/base.py:99-110 | The anyOf step by index: with exactly one entry that is not the literal null type, an object, each key looks up beside anyOf first and in that entry then; in every other case the fields stay as they are |
| `Schema.CollapseKeys` | uni_agent/tools/base.py:99-110 | The keys after collapsing: the entry's in their order, then those beside anyOf that it does not have |
| `Schema.TitleParameterDropped` | uni_agent/tools/base.py:91-93 | A tool parameter that is itself called title is dropped with the titles |
| `Schema.OrderIs` | uni_agent/tools/base.py:112-118 | Ordering keeps exactly the same fields and puts the preferred keys first |
| `Schema.OrderedByName` | uni_agent/tools/base.py:112-118 | No key of type, description, enum, default, items, properties, required comes before one listed earlier, and no other key before a listed one |
| `Schema.OthersInOrder` | uni_agent/tools/base.py:112-118 | All other keys stay in the order they had |
| `Schema.CollapseTidy` | uni_agent/tools/base.py:99-110 | After collapsing, no anyOf that collapses is left at this level and every field is still canonical |
| `Schema.NormalizeJsonSchema` | uni_agent/tools/base.py:78-118 | The recursive loops compute the specified normal form |
| `Schema.Collapsed` | uni_agent/tools/base.py:99-110 | The loops compute the collapsed fields that Schema.CollapseIs and Schema.CollapseKeys describe |
| `Schema.Ordered` | uni_agent/tools/base.py:112-118 | The ordering step: preferred keys are popped in order and the rest appended |
| `DeepMerge.MergeAt` | uni_agent/tasks/config.py:12-25 | At every path the merged value is the override where defined (merged if both are mappings), the base elsewhere, and nothing below a non-mapping override |
| `DeepMerge.LeafOfMerge` | uni_agent/tasks/config.py:12-25 | Every scalar or list comes from the override where that decides the path, else from the base |
| `DeepMerge.EmptyIsIdentity` | uni_agent/tasks/config.py:12-25 | The empty mapping is a two-sided identity |
| `DeepMerge.Idempotent` | uni_agent/tasks/config.py:12-25 | Merging a value with itself changes nothing |
| `DeepMerge.Absorbing` | uni_agent/tasks/config.py:12-25 | Merging the same overrides again changes nothing |
| `DeepMerge.CoveredIff` | uni_agent/tasks/config.py:12-25 | A base below some overrides is invisible exactly when they say something at every path it does |
| `DeepMerge.AssociativeIff` | uni_agent/tasks/config.py:12-25 | The two groupings of three layers agree exactly under a recursive condition on the layers |
| `DeepMerge.AssociativeByPathsIff` | uni_agent/tasks/config.py:12-25 | They agree if and only if, at every path where the middle layer cuts off a mapping of the first that the last opens again, the last covers what was there |
| `DeepMerge.NotAssociative` | uni_agent/tasks/config.py:12-25 | Three concrete layers whose two groupings differ |
| `DeepMerge.DeepMergeValues` | uni_agent/tasks/config.py:12-25 | The loop over the overrides, in any order, computes the specified merge |
| `DeepMerge.Resolve` | uni_agent/tasks/config.py:57-79 | Each error has its exact condition (no usable name; a name the file does not have); otherwise every scalar or list of the result is that of the runtime model, else of the sample, else of the entry of that name in the file |
| `DeepMerge.RuntimeDecides` | uni_agent/tasks/config.py:76-78 | The runtime layer decides exactly the paths below agent.model that a setting other than None decides, and says there what the setting says |
| `DeepMerge.LoadTaskConfigs` | uni_agent/tasks/config.py:33-43 | Loading indexes the entries by name, or fails on the first nameless or repeated one |
| `DeepMerge.LoadIs` | uni_agent/tasks/config.py:33-43 | Loading succeeds exactly when every entry has a name and no two share one; then each entry is found by its name and nothing else is |
| `DeepMerge.LoadError` | uni_agent/tasks/config.py:33-43 | Otherwise the error is that of the first entry without a name or with the name of an earlier one |

## Left out

- Tensor values, dtypes, devices and the parameter-name table: a tensor is its rows, a name is a layer number and a parameter name.
- The other branches of the tensor merge (concatenation along a dimension, norms and routers): one torch call each.
- The non-grouped expert branch, in which the element count's `numel_w2` is never assigned.
- Vision blocks, MLA attention and embedding copies of the converter: the same row operations or plain copies.
- LogDispatch: stderr reports of drops, fork re-initialization, the shutdown join's timeout and file errors are not modelled.
- Gateway shutdown with calls in flight, and cancellation of a session between its awaits.
- Gateway session internals (codec, adapters, reward posting): finalize and abort either return or raise.
- SessionLimit: choosing a runner by agent name, and dropping the semaphores when the event loop changes, are not modelled.
- SessionLimit.CapBoundsLoad: is stated for one runner, because with several the caps only add up.
- Batch: scoring through a reward worker is its score, none or an error; logging and trajectory dumps have no effect.
- Batch.RunBatch: a prompt's own sessions are given by their outcomes; how they interleave while running is the subject of SessionLimit.
- RewardReadback.ReadScores: integers are parsed on ASCII digits and spaces only, and rewards are exact reals.
- Dispatch: meta_info, in-place padding of arguments and negative or stepped slices are not modelled; zero tensor rows are taken to chunk into empty chunks.
- Dispatch.FutureGet: is stated for outputs with equal columns; what other outputs do is the error of Dispatch.Concat.
- BusyTime: the other figures of the request summary are plain sums and quotients.
- Editor: message texts, snippets and the view command's output are not modelled; aliased paths and writes from outside the tool do not occur.
- React: toolbox set-up retries and the tools' own timeouts are part of the tools' behaviour.
- MemAgent: the wording of the prompt templates is abstracted to their arguments; timing fields are omitted.
- WorkQueue: the summary's averages, and a worker dying of an exception after dequeuing, are not modelled.
- Schema: an anyOf that is a number, a boolean or null raises in the source and is kept here; other non-lists never collapse in either.
- DeepMerge.Resolve: task names that are mappings are rejected as missing; the printed form of other names is taken as given.
- Reporting, plotting, CLI parsing, viewers, registries, sandbox providers and launch scripts.
