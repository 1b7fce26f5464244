# miles: converters and training drivers, modelled and proved

This project models the parts of the miles repository that decide what ends up in a checkpoint and in what order
workers are driven, and proves what those parts promise. Run `dafny verify dfyconfig.toml`.

- **Ray checkpoint converter.** Stored mixture-of-experts chunks are converted one by one (`MoeChunks`), read as often
  as they overlap a wanted chunk (`ChunkReads`), listed in blocks by storage file (`MoeBlocks`), planned into tasks
  (`TaskGrouping`, `MlaPairs`, `ConversionPlan`, `PlanPartition`), handed to workers whose results arrive in any order
  (`Dispatch`), cut into shards (`Shards`) and indexed (`GlobalIndex`). `RayConversion` joins these to one statement
  about a whole run.
- **NVFP4 converter.** Two passes over files in which gate and up tensors may be apart (`Nvfp4`, `Nvfp4Conversion`,
  `Nvfp4Order`).
- **Training drivers.** `Cluster` gives the workers as a state machine with safety rules; `AsyncDriver` and
  `SyncDriver` are the two loops, proved to keep the rules and to follow a closed form. `Parker`, `MultiPolicy` and
  `GlobalCheckpoint` are the multi-policy run: every interleaving of a leader and its followers, its global saves, and
  the check a restart makes.
- **Number formats and layouts.** `E4M3` and `BlockCast` (MXFP4 to blockwise FP8, two independent writings), `Views`
  (row-major reshapes), `FusedQkv`, `Int4Pack`, and `ShardWriting`, the MiMo converter's shard writer.
- **Layout searches.** `TokenLimit` and `PipelineSplit`.

`Wrappers`, `Sequences`, `Sorting`, `Bucketing`, `Strings`, `Arithmetic` and `Schedule` are shared helpers.

## What turned out to need a condition

- `tools/convert_mxfp4_to_fp8.py` says its cast is lossless. It is so exactly on tensors whose elements all survive
  (`BlockCast.CastIsExactIff`, `BlockCast.WholeCastIsExactIff`); `BlockCast.CastCanLose` is a valid tensor on which it
  is not. `tools/convert_mimo_v2_to_bf16.py` states the condition in words and counts inexact experts.
- The async driver serves only published weights exactly under the guard of `miles/utils/arguments.py:134-138`
  (`AsyncDriver.ServesPublishedWeightsIff`); the driver itself does not check it.
- `group_small_tasks` keeps no bin that lists no keys, so it conserves bytes exactly when its last bin lists keys or
  weighs nothing (`TaskGrouping.GroupingAccountsForBytes`; `TaskGrouping.KeylessTaskIsDropped` loses 60 bytes). The
  tasks its caller makes all list keys, and conservation holds for them.
- A name that one task emits twice into one shard is overwritten without an error
  (`Shards.RepeatedNameIsOverwritten`); across shards it is rejected. Shards keep the stream exactly when no shard
  repeats a name (`Shards.ShardsHoldStream`), and a run publishes the whole checkpoint exactly when none of its names
  repeats (`RayConversion.Convert`).
- The Ray converter lists every chunk of a directly converted tensor exactly once if and only if no two of its stored
  chunks overlap (`PlanPartition.EachDirectChunkOnce`); overlapping ones would be listed several times.
- In the NVFP4 converter a generated scale and a kept tensor of one file may claim one name. An output that holds both
  exists exactly when they agree (`Nvfp4Conversion.HoldsAllIffAgree`); otherwise the kept tensor is the one that is
  lost, without an error, whichever comes first (`Nvfp4Conversion.KeptTensorIsLost`).
- `train.py` saves data progress before the models, on purpose; `train_async.py` saves the models first. Both orders are
  modelled as they are.

## Model

| member | source | states |
|---|---|---|
| `MoeChunks.ConvertedMoeTensorsFromChunk` | tools/convert_torch_dist_to_hf_ray.py:578-648 | One pass over the experts of a chunk: each expert's tensors in order, or the error of the first expert that has one; a wrong expert count is refused exactly when the chunk and its read item disagree. |
| `MoeChunks.GroupsAreEmitted` | tools/convert_torch_dist_to_hf_ray.py:578-648 | The groups the loop returns, laid end to end, are the emitted stream the other results speak about. |
| `MoeChunks.SupportedConverts` | tools/convert_torch_dist_to_hf_ray.py:480-503 | A read item accepted by the support check never hits an error branch of the conversion. |
| `MoeChunks.EmittedIsExpected` | tools/convert_torch_dist_to_hf_ray.py:605-648 | Every tensor a supported chunk emits has a name the whole tensor stands for and carries exactly that expert's own rows. |
| `MoeChunks.EmittedCount` | tools/convert_torch_dist_to_hf_ray.py:605-648 | A chunk emits a name once if it stores the first row of that name's part, otherwise not at all. |
| `MoeChunks.ConversionIgnoresChunking` | tools/convert_torch_dist_to_hf_ray.py:480-648 | Main result: supported chunks that store every cell once, however cut and ordered, together yield exactly the names and matrices of one whole-tensor chunk, each once. |
| `MoeChunks.ExactIffTiled` | tools/convert_torch_dist_to_hf_ray.py:480-648 | Conversely, supported chunks reproduce the whole tensor if and only if they tile it. |
| `MoeChunks.CoveragePermutation` | tools/convert_torch_dist_to_hf_ray.py:480-648 | How often a cell is covered, hence whether chunks tile a tensor, does not depend on the order chunks are listed or read in. |
| `ChunkReads.ReadOnceIffSeparate` | tools/convert_torch_dist_to_hf_ray.py:506-510 | Asking for all chunks of a tensor reads every non-empty chunk once, and no empty one, if and only if no two of them overlap. |
| `MoeBlocks.CreateMoeBlockSpecs` | tools/convert_torch_dist_to_hf_ray.py:506-563 | The blocks of a directly convertible tensor, one per storage file in name order, made of what is read when all its chunks are asked for; none for any other tensor. |
| `MoeBlocks.BlocksListReads` | tools/convert_torch_dist_to_hf_ray.py:534-563 | For every chunk list: the blocks together list a chunk as often as it is read, and their bytes add up to the bytes of what is read. |
| `MoeBlocks.BlocksPartitionChunks` | tools/convert_torch_dist_to_hf_ray.py:534-563 | The blocks list each non-empty chunk of a tensor exactly once, and nothing else, if and only if no two of its chunks overlap. |
| `MoeBlocks.BlocksAreOneFileEach` | tools/convert_torch_dist_to_hf_ray.py:549-563 | Every block is non-empty and all its chunks lie in its one file. |
| `MoeBlocks.GroupMoeBlocks` | tools/convert_torch_dist_to_hf_ray.py:797-834 | The packing loop with its open group computes the grouping the next row bounds; a zero limit falls back to the default size. |
| `MoeBlocks.BlockGroupsAreTight` | tools/convert_torch_dist_to_hf_ray.py:797-834 | Groups hold exactly the given blocks, none is empty, and a group exceeds the target only when it is a single block. |
| `TaskGrouping.GroupSmallTasks` | tools/convert_torch_dist_to_hf_ray.py:732-754 | The loop with its open bin computes the grouping the following rows are about, the zero-limit case included. |
| `TaskGrouping.GroupingAccountsForBytes` | tools/convert_torch_dist_to_hf_ray.py:732-754 | For all tasks and limits: the grouped bytes and the bytes of a last bin that lists no keys add up to the bytes given, so bytes are conserved if and only if that bin, which line 752 does not keep, weighs nothing. |
| `TaskGrouping.GroupingConservesBytes` | tools/convert_torch_dist_to_hf_ray.py:732-754 | Tasks that all list keys, as the planner makes them, keep their bytes whatever the limit. |
| `TaskGrouping.GroupingConservesKeys` | tools/convert_torch_dist_to_hf_ray.py:732-754 | Every key is listed as often after grouping as before. |
| `TaskGrouping.KeylessTaskIsDropped` | tools/convert_torch_dist_to_hf_ray.py:743-753 | An input that loses bytes: a single task of 60 bytes and no keys is grouped to nothing. |
| `TaskGrouping.BinsAreTight` | tools/convert_torch_dist_to_hf_ray.py:741-754 | Every bin fits the limit, and because of the decreasing order every bin but the last is more than half full. |
| `TaskGrouping.BinCountBound` | tools/convert_torch_dist_to_hf_ray.py:741-754 | The number of bins is below twice the grouped bytes over the limit, plus one. |
| `TaskGrouping.AtMostTwiceAnyPacking` | tools/convert_torch_dist_to_hf_ray.py:741-754 | No packing of the same tasks into bins of that limit, however clever, uses fewer than half as many bins. |
| `TaskGrouping.AtomicTasksStayWhole` | tools/convert_torch_dist_to_hf_ray.py:732-754 | Keys planned together are never split over two tasks. |
| `MlaPairs.ReplaceSplits` | tools/convert_torch_dist_to_hf_ray.py:725-729 | Left-to-right text replacement may be computed on prefix and suffix separately when no match can straddle them. |
| `MlaPairs.PairShareGroup` | tools/convert_torch_dist_to_hf_ray.py:725-729 | Whatever precedes them, the query and key-value down projections of a layer get the same group name. |
| `ConversionPlan.CollectMoeBlocksByFile` | tools/convert_torch_dist_to_hf_ray.py:777-794 | Walking the sorted keys and deleting converted ones leaves exactly the tensors not converted directly, in metadata order, and the blocks of the others. |
| `ConversionPlan.PlanWholeSourceTasks` | tools/convert_torch_dist_to_hf_ray.py:757-774 | Whole-source planning: pair grouping, sorting, packing. |
| `ConversionPlan.WholeTasksConserve` | tools/convert_torch_dist_to_hf_ray.py:757-774 | Whole-source planning lists each key as often as it was given and conserves bytes. |
| `ConversionPlan.GroupStaysTogether` | tools/convert_torch_dist_to_hf_ray.py:757-774 | Keys of one pair group end up in one task. |
| `PlanPartition.PlanConversionTasks` | tools/convert_torch_dist_to_hf_ray.py:837-857 | The planner computes the plan the following rows are about. |
| `PlanPartition.EachWholeTensorOnce` | tools/convert_torch_dist_to_hf_ray.py:757-857 | A selected tensor is in exactly one whole-source task if it is not converted directly, otherwise in none. |
| `PlanPartition.EachReadListed` | tools/convert_torch_dist_to_hf_ray.py:777-857 | For every request: the blocks of all tasks list a chunk as often as it is read for the selected tensors that are converted directly. |
| `PlanPartition.EachDirectChunkOnce` | tools/convert_torch_dist_to_hf_ray.py:534-563 | The plan holds every non-empty chunk of a directly converted tensor in exactly one block of one task, and no other chunk of it, if and only if no two of its chunks overlap. |
| `PlanPartition.PlannedBlocksAreWellFormed` | tools/convert_torch_dist_to_hf_ray.py:777-857 | Every block in the plan is a non-empty part of the chunks of one selected, directly convertible tensor, all in the block's one file. |
| `PlanPartition.BytesConserved` | tools/convert_torch_dist_to_hf_ray.py:837-857 | The estimates of all tasks add up to the bytes of the selected tensors. |
| `PlanPartition.NumberedBySize` | tools/convert_torch_dist_to_hf_ray.py:850-857 | Tasks are numbered 0, 1, ... in non-increasing byte order. |
| `PlanPartition.DownProjectionsShareTask` | tools/convert_torch_dist_to_hf_ray.py:725-774 | With a query rank configured, the two down projections of a layer always share a task. |
| `Dispatch.StartedIsHealthy` | tools/convert_torch_dist_to_hf_ray.py:1200-1208 | The initial submissions put one task on every worker and lose none. |
| `Dispatch.CompletionStaysHealthy` | tools/convert_torch_dist_to_hf_ray.py:1210-1227 | Whichever submission completes, afterwards every worker again has at most one task, submitted equals completed plus pending, and no worker idles while tasks remain. |
| `Dispatch.RunsAreHealthy` | tools/convert_torch_dist_to_hf_ray.py:1163-1231 | The same holds in every state of every run, for any completion order. |
| `Dispatch.NothingPendingMeansDone` | tools/convert_torch_dist_to_hf_ray.py:1210-1227 | When nothing is pending, all tasks were submitted and each was completed exactly once. |
| `Dispatch.FinishedRunIsComplete` | tools/convert_torch_dist_to_hf_ray.py:1163-1231 | A finished run completed every task once; an unfinished one can always go on. |
| `Dispatch.SortRestoresTaskOrder` | tools/convert_torch_dist_to_hf_ray.py:1230-1231 | Sorting the collected results puts them in task order whatever order they arrived in. |
| `Dispatch.CollectRayResults` | tools/convert_torch_dist_to_hf_ray.py:1163-1231 | The loop, with `ray.wait` as a free choice from the pending submissions, follows a legal run to its end and returns the results in task order. |
| `Shards.AppendToShards` | tools/convert_torch_dist_to_hf_ray.py:939-960 | Appending a group continues the greedy cut of one stream with the open shard carried over. |
| `Shards.WritePreparedTensorGroups` | tools/convert_torch_dist_to_hf_ray.py:1006-1048 | The groups of a task, each quantized first if the checkpoint asks for it, are cut as one stream, the last open shard included. |
| `Shards.CutIsGreedy` | tools/convert_torch_dist_to_hf_ray.py:939-960 | The parts laid end to end are the stream, none is empty, each fits or is a single tensor, and none could have taken the next tensor. |
| `Shards.GreedyCutIsUnique` | tools/convert_torch_dist_to_hf_ray.py:939-960 | There is only one such cut, so this determines the shards. |
| `Shards.DictIsLossless` | tools/convert_torch_dist_to_hf_ray.py:939-960 | Storing a part in a dictionary keeps it unchanged if and only if no name repeats in it. |
| `Shards.ShardsHoldStream` | tools/convert_torch_dist_to_hf_ray.py:927-960 | The shards laid end to end are the tensor stream if and only if no shard repeats a name. |
| `Shards.ShardsFit` | tools/convert_torch_dist_to_hf_ray.py:927-960 | Every shard fits the byte budget unless it holds one tensor, and with distinct names the reported sizes add up to the stream. |
| `Shards.RepeatedNameIsOverwritten` | tools/convert_torch_dist_to_hf_ray.py:939-960 | A name emitted twice into one shard is silently written once, with the later value. |
| `GlobalIndex.PlanGlobalShards` | tools/convert_torch_dist_to_hf_ray.py:1234-1249 | An index is produced exactly when there is a shard and no name occurs twice; then every name maps to the one final file that holds it and total_size is the sum of the shard sizes. |
| `GlobalIndex.CompletionOrderIsIrrelevant` | tools/convert_torch_dist_to_hf_ray.py:1236-1249 | Task results handed over in any order give the same shard list. |
| `RayConversion.LoadMoeBlockDirect` | tools/convert_torch_dist_to_hf_ray.py:651-697 | The chunks of a block, read in offset order and converted expert by expert, give the block's part of the task's stream; if every chunk is supported there is no error. |
| `RayConversion.PrepareMoeBlockTask` | tools/convert_torch_dist_to_hf_ray.py:963-978 | The groups of all blocks of a task, in order, are the task's stream. |
| `RayConversion.ConvertTask` | tools/convert_torch_dist_to_hf_ray.py:1090-1127 | Reading, converting and writing a task of supported blocks or of whole keys succeeds, and the result is the greedy cut of the task's tensor stream. |
| `RayConversion.PlanIsLoadable` | tools/convert_torch_dist_to_hf_ray.py:777-857 | Every block of every planned task of a sound checkpoint (supported chunks that tile each tensor, no two overlapping) is non-empty, held in the checkpoint and directly convertible, so no planned task makes a worker fail. |
| `RayConversion.ChunksMeanTensor` | tools/convert_torch_dist_to_hf_ray.py:513-648 | The chunks of a sound tensor, read in any files and tasks, yield what the tensor stands for. |
| `RayConversion.PlanEmitsCheckpoint` | tools/convert_torch_dist_to_hf_ray.py:1308-1347 | The streams of all planned tasks together are exactly the tensors of the checkpoint. |
| `RayConversion.RunHoldsCheckpoint` | tools/convert_torch_dist_to_hf_ray.py:1308-1347 | The shards of a whole run hold exactly the checkpoint's tensors, with distinct names and the right total size. |
| `RayConversion.IndexIsFaithful` | tools/convert_torch_dist_to_hf_ray.py:1234-1249 | An index that agrees with the shards is faithful to the checkpoint: it names its tensors and no others, each in the one file that has it. |
| `RayConversion.Publish` | tools/convert_torch_dist_to_hf_ray.py:1234-1249 | Naming and indexing the collected results succeeds exactly when something was written and no name repeats, and publishes the whole checkpoint exactly when none of its names repeats. |
| `RayConversion.Convert` | tools/convert_torch_dist_to_hf_ray.py:1308-1347 | End to end, for every order in which workers finish: a run on a sound checkpoint succeeds if and only if it wrote shards that repeat no name; it publishes exactly the tensors of the checkpoint if and only if there are any and no name repeats; and then the index is faithful. |
| `Nvfp4.CollectGatedPairLocations` | tools/convert_hf_to_nvfp4.py:264-291 | The first pass succeeds exactly when no tensor is rejected and no role is doubled, and then finds exactly the bases with both halves, at their locations. |
| `Nvfp4Conversion.ProcessKeyKeepsInv` | tools/convert_hf_to_nvfp4.py:342-400 | Every branch of the loop body keeps the account of what is written, processed and owed; the missing-entry guard never fires on a clean checkpoint. |
| `Nvfp4Conversion.ProcessFile` | tools/convert_hf_to_nvfp4.py:313-403 | A file's output is exactly the union of what its own tensors become, with the halves other files owe handed over or kept; the modules reported as not converted are those of exactly the keys that are kept. |
| `Nvfp4Conversion.NoNameClashSuffices` | tools/convert_hf_to_nvfp4.py:294-305 | If no key or generated scale name coincides with another tensor's within a file, no result is overwritten; the next two rows are about the other case. |
| `Nvfp4Conversion.HoldsAllIffAgree` | tools/convert_hf_to_nvfp4.py:341-400 | A file has an output with everything its tensors become if and only if those that claim one name agree on its value. |
| `Nvfp4Conversion.KeptTensorIsLost` | tools/convert_hf_to_nvfp4.py:341-400 | When a kept tensor has the name of a scale generated for a tensor quantized on its own, processing the two in either order reports nothing and leaves the generated scale under that name. |
| `Nvfp4Conversion.SecondPass` | tools/convert_hf_to_nvfp4.py:433-466 | All files: every result written once, to the file of its source tensor, and the name map points to the last file with that name. |
| `Nvfp4Conversion.NothingOwedAtEnd` | tools/convert_hf_to_nvfp4.py:462-466 | After the last file no half is left waiting, so the final guard never fires on a clean checkpoint. |
| `Nvfp4Conversion.ConvertNvfp4` | tools/convert_hf_to_nvfp4.py:406-466 | Main result: on a clean checkpoint, for every file order and placement of halves, the two passes succeed and refine the specification (pair-quantized, singly quantized or copied), and the collected modules are those of the kept keys. |
| `Nvfp4Order.SameSpec` | tools/convert_hf_to_nvfp4.py:342-400 | What a tensor becomes does not depend on where its file is listed. |
| `Nvfp4Order.FileOrderIsIrrelevant` | tools/convert_hf_to_nvfp4.py:433-466 | Two conversions of the same files in any two orders write the same output files. |
| `Cluster.Do` | train_async.py:28-182 | One remote call: it happens only when the rules allow it and changes the workers as the rules say. |
| `Cluster.TrainOn` | train_async.py:124-136 | One optimisation step, critic and critic-only warm-up included: each due trainer steps once on the rollout's own live data, which is then dropped and released. |
| `Cluster.RestTrainer` | train_async.py:88-94 | The actor leaves the device only where there is no critic and offloading is on. |
| `Cluster.SaveTrainer` | train_async.py:81-86 | With a critic and offloading a trainer is woken for its save and put back to sleep. |
| `Cluster.StepsMeaning` | train_async.py:124-134 | The recorded steps are strictly increasing and are exactly the due rollouts. |
| `Cluster.LegalRunsAreOrdered` | train_async.py:96-167 | Any event sequence that keeps the rules requests and answers rollouts in order, steps at most once per rollout and, without a fully-async producer, answers each request from the version it was made under. |
| `Cluster.PeakIsOnOneDevice` | miles/utils/args/configs/cluster.py:264-275 | In every state of every legal run of a colocated setup that offloads both sides: with the peak on the device, the actor and the engine weights are never both off it; with the peak on the host, they are never both on it; and in every run flushed engines are paused. |
| `AsyncDriver.Publish` | train_async.py:154-161 | The weight update: without a fully-async producer the outstanding rollout is awaited first; a deferred drain follows the update. |
| `AsyncDriver.YieldEngines` | train_async.py:113-118 | Colocated engines pause and give up exactly the memory the offload level names. Legality carries the order: memory may leave only while they are paused and flushed. |
| `AsyncDriver.Resume` | train_async.py:162-167 | Colocated engines get their memory back before they continue, and are drained for the next rollout only then. |
| `AsyncDriver.ReceivedFeed` | train_async.py:103-105 | Whatever early or late request preceded it, at the start of a step exactly its rollout has arrived, under the version it was requested from. |
| `AsyncDriver.TrainRound` | train_async.py:124-148 | The step and its saves, external trigger included, leave the trainers as the closed form says. |
| `AsyncDriver.Iterate` | train_async.py:102-182 | One iteration takes the closed form of the workers' state at r to the one at r + 1 without breaking a rule. |
| `AsyncDriver.Train` | train_async.py:28-182 | The whole run, refused exactly for colocation without a fully-async producer: no rule is ever broken (no update while a non-fully-async get is outstanding, no pause or offload while any get is), and it ends in the closed form. |
| `AsyncDriver.PipelinedLag` | train_async.py:101-161 | Without a fully-async producer rollout r > start lacks between 1 and k trained rollouts, k exactly at the multiples of k that are k past the start. |
| `AsyncDriver.FullyAsyncLag` | train_async.py:110-112 | With a fully-async producer every drain, colocated or not, is issued when the engines lack at most k - 1 trained rollouts, with the exact cases of equality. |
| `AsyncDriver.RunIsPipelined` | train_async.py:101-182 | A finished run requested and drained every rollout once, in order, each under one version, with at most one request left over, and released them; actor and critic stepped once on exactly the rollouts each is due. |
| `AsyncDriver.ServesPublishedWeightsIff` | train_async.py:113-166 | A run of at least two iterations serves only published weights if and only if it is not (colocated, offloading engine weights, with an update interval above 1). |
| `AsyncDriver.ServesPublishedWeightsIffShort` | train_async.py:113-166 | A run of one iteration does so if and only if its weights stay or its only iteration publishes. |
| `SyncDriver.MakeRoom` | train.py:126-137 | The engines give up the memory the offload level names, and with the peak on the device the actor is back. Legality carries the order there: weights may leave only once the actor is up. |
| `SyncDriver.SaveAll` | train.py:96-111 | Data progress is saved before any model, and the actor only once it is trained. |
| `SyncDriver.HandOff` | train.py:163-176 | The engines hold the freshly trained weights with all memory resident and the trainer is at rest. Legality carries the order: with the peak on the device, cached memory and gradient buffer go first, then the weights return, and only then the actor leaves; otherwise the actor leaves first. |
| `SyncDriver.Iterate` | train.py:122-191 | One iteration takes the closed form at r to the one at r + 1 without breaking a rule. |
| `SyncDriver.Train` | train.py:30-191 | The whole run under every offload, peak-device and critic setting; refused exactly for the settings the source asserts against. |
| `SyncDriver.DrainsOnPolicy` | train.py:123-124 | Rollout r is generated by engines that were synced after all training before r. |
| `SyncDriver.EvalsOnPolicy` | train.py:83-118 | An eval labelled r runs after training at r was synced, evals before the loop included, except the one of the starting weights that is labelled 0; and after no later training, unless the run is eval-only. |
| `SyncDriver.RunIsOnPolicy` | train.py:122-191 | A finished run generated and trained every rollout once and in order on synced, intact weights, and leaves no data reference alive. |
| `Parker.CloseSound` | miles/utils/multi_policy/parker.py:18-26 | Closing an empty parker keeps its waiters woken exactly while it is open. |
| `Parker.ClosingEarlyLosesWaiters` | miles/utils/multi_policy/parker.py:20-21 | Without waiting for it to empty, a woken follower would run through a closed parker. |
| `Parker.AllReadyMeansEveryone` | miles/utils/multi_policy/parker.py:23 | A ready count equal to the number of followers means every follower is waiting. |
| `MultiPolicy.SaveSeesEveryone` | train_multi_policy.py:211-217 | When all followers have arrived at a save, the shared dictionary has an entry for every policy and equals what each was last trained on. |
| `MultiPolicy.RunKeeps` | train_multi_policy.py:125-223 | The invariant holds after every schedule of leader and follower steps, failures and cancellation. |
| `MultiPolicy.GlobalSavesAreExact` | train_multi_policy.py:211-220 | In every schedule the model checkpoints, the executor save and the record file of a global save name the same vector: the last rollout every policy finished training on. |
| `MultiPolicy.GatheringNeverFails` | train_multi_policy.py:212-217 | No policy is ever missing from the dictionary when the models are gathered. |
| `MultiPolicy.FollowersAreQuiet` | train_multi_policy.py:179-181 | During an eval, and from the first model checkpoint of a save to its record, no follower can take any step. |
| `MultiPolicy.DueSavesAreMade` | train_multi_policy.py:205-220 | No due periodic save before the leader's position has been skipped: neither the last rollout's, nor that of the round after which a debug exit leaves the loop. |
| `MultiPolicy.WaitsEnd` | miles/utils/multi_policy/parker.py:34-40 | While the leader waits for everybody, every live follower that is not parked there can move and gets closer with each move. |
| `MultiPolicy.ParkedMeansReady` | miles/utils/multi_policy/parker.py:23 | Once all are parked the leader's wait ends: the waits cannot deadlock. |
| `MultiPolicy.DrainingEnds` | miles/utils/multi_policy/parker.py:18-21 | In every state of every run in which the leader waits for the save or the eval parker to empty: it goes on exactly when the parker is empty, every waiter can leave, each such step removes one waiter, and nobody joins. |
| `GlobalCheckpoint.LoadFindsSave` | miles/utils/multi_policy/checkpoint_state.py:15-33 | In every run, what a global save wrote is read back under the leader's rollout, with the trained vector of that save, whatever was in the directory before or is saved later. |
| `GlobalCheckpoint.BadRecordsAreOld` | miles/utils/multi_policy/checkpoint_state.py:15-33 | A run files no record that a restart would misread: a record whose load fails was in the directory, unchanged, before the run. |
| `GlobalCheckpoint.RestoreMatchesSave` | miles/utils/multi_policy/utils.py:76-110 | A restart from a global save is accepted if and only if every policy resumes right after the rollout its own model checkpoint was labelled with. |
| `GlobalCheckpoint.RestartContinues` | miles/utils/multi_policy/utils.py:103-109 | The run an accepted restart begins starts every policy where the saved training ended. |
| `E4M3.EncodeIsNearest` | tools/convert_mimo_v2_to_bf16.py:81 | The rounding finds the nearest E4M3 value of every magnitude, ties going to the even code. |
| `E4M3.EncodeExactIff` | tools/convert_mimo_v2_to_bf16.py:81 | A magnitude is unchanged if and only if the format has it. |
| `E4M3.FourBitsAreExact` | tools/convert_mimo_v2_to_bf16.py:78-81 | Any four-bit significand times a non-negative power of two units is kept. |
| `Views.View4At` | tools/convert_mxfp4_to_fp8.py:42-43 | A view to blocks reads row i * 128 + a and column j * 128 + b. |
| `Views.Reshape2At` | tools/convert_mxfp4_to_fp8.py:46 | Reshaping blocks back to rows reads the tile the element lies in. |
| `BlockCast.UnpackedAt` | tools/convert_mimo_v2_to_bf16.py:53-58 | Element c of a row is the low nibble of byte c / 2 for even c, the high one for odd c. |
| `BlockCast.ScalesAgree` | tools/convert_mxfp4_to_fp8.py:43-44 | Both casts compute the same power-of-two scale for every block. |
| `BlockCast.CastsAgree` | tools/convert_mxfp4_to_fp8.py:29-49 | Both converters cast every tensor alike, element for element and scale for scale, and refuse the same shapes. |
| `BlockCast.CastIsFinite` | tools/convert_mimo_v2_to_bf16.py:69-81 | Every cast magnitude is at most 384. |
| `BlockCast.CodeOf` | tools/convert_mimo_v2_to_bf16.py:77-81 | What is rounded is the element times 2 to the 14 minus its exponent distance from the block's largest, in units of the smallest subnormal, and the sign is kept. |
| `BlockCast.CastIsExactIff` | tools/convert_mimo_v2_to_bf16.py:47-81 | Dequantizing the cast gives the source value if and only if the element is zero or its exponent distance is at most 14, one more for every factor two in its magnitude. |
| `BlockCast.WholeCastIsExactIff` | tools/convert_mimo_v2_to_bf16.py:47-81 | The same for a whole tensor. |
| `BlockCast.SpreadFourteenIsExact` | tools/convert_mimo_v2_to_bf16.py:69-81 | Exponents within 14 of each other in every block make the cast exact. |
| `BlockCast.FifteenLosesHalf` | tools/convert_mimo_v2_to_bf16.py:77-81 | At distance 15 the element 0.5 becomes zero, so 14 is the best bound. |
| `BlockCast.CastCanLose` | tools/convert_mxfp4_to_fp8.py:7-8 | A valid tensor on which the cast is not lossless. |
| `ShardWriting.ShardWriter.Add` | tools/convert_mimo_v2_to_bf16.py:163-168 | A new tensor is appended to what has been added, saving the buffer as soon as it reaches the shard size; a repeated name is refused and changes nothing. |
| `ShardWriting.ShardWriter.Flush` | tools/convert_mimo_v2_to_bf16.py:170-178 | The buffer becomes one more file, in order; contents, byte totals and the name map stay in step. |
| `ShardWriting.WriteAll` | tools/convert_mimo_v2_to_bf16.py:154-178 | Over a whole run the files laid end to end are the tensors, every file but the last is cut exactly where it reaches the shard size, every name maps to its file and total bytes add up; refused exactly when a name repeats. |
| `FusedQkv.ScaleRowOfChunk` | tools/convert_mimo_v2_to_bf16.py:84-91 | Whenever the dequantization goes through, evenly divided or not, a row is scaled by the block its place in its chunk lies in, among that chunk's own blocks. |
| `FusedQkv.ScaleRowOfShard` | tools/convert_mimo_v2_to_bf16.py:84-91 | Row r gets scale block r mod n div 128 of its own shard, for shards of any number n of rows; the checks pass on all such shapes. |
| `FusedQkv.DequantReadsScaleRow` | tools/convert_mimo_v2_to_bf16.py:84-91 | Chunking, splitting, zipping, repeating the scales over blocks and concatenating goes through on exactly the shapes the row formula accepts whose columns are covered, and then scales every element by the formula's row and its column's block. |
| `FusedQkv.PaddingMatters` | tools/convert_mimo_v2_to_bf16.py:86-90 | Reading scales without regard to shards would be right if and only if shards are whole blocks or there is one shard. |
| `FusedQkv.SplitUndoesFuse` | tools/convert_mimo_v2_to_bf16.py:94-106 | Splitting the layout q_i, k_i, v_i of every shard returns q, k and v. |
| `FusedQkv.FuseUndoesSplit` | tools/convert_mimo_v2_to_bf16.py:94-106 | Interleaving the parts again gives the tensor back: nothing is lost or duplicated. |
| `FusedQkv.HeadsInOrder` | tools/convert_mimo_v2_to_bf16.py:100-106 | Row j of head h comes from shard h div heads-per-shard, so heads come out in order. |
| `FusedQkv.PartsKeepTheirScale` | tools/convert_mimo_v2_to_bf16.py:84-106 | After that dequantization and the split into q, k and v, every element carries the scale of its own padded shard block. |
| `Int4Pack.PackedIsValue` | tools/convert_hf_to_int4_direct.py:66-68 | Wrapped shifts and wrapped sums compute the number with the given digits modulo 2^32. |
| `Int4Pack.WordHolds` | tools/convert_hf_to_int4_direct.py:51 | For every width the fields of a word stay within 32 bits. |
| `Int4Pack.ExtractPacked` | tools/convert_hf_to_int4_direct.py:66-68 | A field comes back out of its word when all digits fit the field. |
| `Int4Pack.RoundTripIff` | tools/convert_hf_to_int4_direct.py:30-73 | For every width 1 to 8 and either dimension, padding included: unpacking gives the matrix back if and only if every value is in the b-bit range; other widths are refused. |
| `Int4Pack.ZerosAreDigits` | tools/convert_hf_to_int4_direct.py:134-139 | The interleaved zero-point shifts write hexadecimal digits in the order 0, 2, 4, 6, 1, 3, 5, 7. |
| `Int4Pack.ZerosRoundTripIff` | tools/convert_hf_to_int4_direct.py:134-139 | All eight zero points come back from their nibbles if and only if each fits four bits. |
| `TokenLimit.TrainerLimitIsExact` | serve_tinker.py:40-47 | A datum's padded per-rank share fits the token budget if and only if the datum is no longer than the computed limit, for odd and even padding multiples. |
| `TokenLimit.HoldsIff` | miles/backends/training_utils/data/context_parallel.py:439-452 | Every position of the padded datum is in the two zigzag slices of exactly one rank. |
| `TokenLimit.TokenOnOneRank` | miles/backends/training_utils/data/context_parallel.py:439-452 | So every token of a datum is on exactly one rank, however the datum has to be padded. |
| `TokenLimit.ComputeLimits` | serve_tinker.py:40-53 | The datum limit is the largest length that fits positions and budget, refused exactly when none does; the sample limit is the largest datum the engine still accepts. |
| `PipelineSplit.ConfigurePipelineParallel` | tools/convert_hf_to_torch_dist.py:97-133 | The halving loop ends with the largest size of its chain that leaves the last stage a layer, or raises exactly when no size of the chain does; without automatic splitting nothing changes. |
| `PipelineSplit.ChosenSplitWorks` | tools/convert_hf_to_torch_dist.py:118-124 | The chosen stages hold all layers, the last at least one and at most a full stage, and stages times expert groups divide the world. |
| `PipelineSplit.PowerOfTwoNeverFails` | tools/convert_hf_to_torch_dist.py:119-133 | With a power of two of expert groups the search cannot fail. |

## Left out

- RayConversion.Convert: what is written for a converted expert tensor is an arbitrary function of that tensor, which covers quantizers that treat tensors one at a time; those that treat gate and up of one group jointly are left out. The conversion of a whole-source key is an arbitrary function of the key. The dry run, asset copying and the choice of a default concurrency are left out.
- ChunkReads.ReadOnceIffSeparate: chunks of different rank count as not overlapping.
- RayConversion.ConvertTask: the byte streams under a chunk, load accounting and timing are left out; a chunk is read as the part of the tensor it stores.
- Dispatch.CollectRayResults: a wait that times out without a result is a step that changes nothing; actor placement, progress output and remote failures are left out.
- GlobalIndex.PlanGlobalShards: names of temporary files, renaming and asset copying are left out; final names are an index and a total.
- MlaPairs.PairShareGroup: the two key patterns are the literal ones of the source; other tensor-name parsing is given structured names.
- ConversionPlan.PlanWholeSourceTasks: numbers given to tasks here are discarded by the caller and not modelled.
- Nvfp4Conversion.ConvertNvfp4: selection of tensors and the quantization kernels are uninterpreted; the modules a kept key contributes are an arbitrary function of the key; total_size, the sorting and augmenting of the module list and the written configuration are left out.
- Nvfp4Conversion.ProcessKeyKeepsInv: says nothing when two tensors of a file claim one name; which value survives then is stated only for a kept tensor against a generated scale (Nvfp4Conversion.KeptTensorIsLost).
- AsyncDriver.Train: workers are a value that every remote call replaces, not objects updated in place; snapshot evals on a dedicated fleet, dashboards, fault tolerance and weight-comparison checks are left out.
- SyncDriver.Train: as for the asynchronous driver; a trainer's memory is resident or not, without sizes.
- Cluster.Do: what a worker computes is not modelled, only when it may be called, what memory is resident and which rollouts and versions are involved.
- AsyncDriver.FullyAsyncLag: bounds the version when a drain is issued; a fully-async producer may have generated parts of the data earlier.
- MultiPolicy.RunKeeps: splits steps that run without an await in between into several actions, which only adds interleavings; the hour-long park timeout is a failure that may happen at any time; weight updates and the eval before the tasks start are left out.
- MultiPolicy.WaitsEnd: shows that each wait needs a bounded number of follower steps; that the scheduler grants them is not modelled.
- MultiPolicy.DueSavesAreMade: the external save trigger is a free choice at every round; removing its file is left out.
- Parker.CloseSound: the parker is a value inside the state of the whole run, not an object updated in place, because its methods suspend halfway and other tasks change it in between.
- ShardWriting.WriteAll: choosing, renaming and loading tensors in the main loops of the FP8 converters, and rewriting their configuration, are left out.
- BlockCast.CastIsExactIff: arithmetic is over the reals; the E8M0 code 255 (NaN), float32 overflow of the largest exponents and the bfloat16 rounding of dequantized values are left out. Sign and zero are kept by BlockCast.CodeOf.
- FusedQkv.ScaleRowOfChunk: an empty weight, and a scale without rows, are refused.
- Int4Pack.ZerosRoundTripIff: is about eight zero points of one word; a number of rows that is not a multiple of eight is left out, and so are the scales and the quantization kernel of the layer.
- TokenLimit.TrainerLimitIsExact: is about one datum in the packed format without gathered context parallelism; several data in one microbatch are left out.
- PipelineSplit.ConfigurePipelineParallel: the printed message and later validation are left out.
- Launch scripts, examples, docker files, HTTP serving, progress bars, logging, configuration rewriting and downloads are not modelled.
- The merge and scan tools and the FSDP prefix stripping are not modelled.
