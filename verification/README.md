# Verified model of the orchestrator's schedulers, queues and caches

The orchestrator keeps several hand-written state machines. This project models them in Dafny and
proves what they promise for every input, every interleaving and every run. Redis is a map, the model
and the executor are inputs that may answer anything, and every `await` at which another coroutine may
run is a point where another step may come in between.

| file | what it models |
|---|---|
| `Plans.dfy` | task plans, acceptable plans, what it means for a task to need another |
| `DagValidation.dfy` | `_validate_dag`: Kahn's algorithm over mutable in-degrees |
| `Decomposition.dfy` | `_validate_task_dag` and its link to `load_plan` |
| `Batch.dfy` | one gathered batch of `execute_plan` as a step system: `_run_single_task`, `update_status`, `_propagate_blocked` |
| `Scheduler.dfy` | class `TaskQueue`: loading, ready tasks, the rounds of `execute_plan` |
| `Leases.dfy` | leases among any number of workers |
| `Text.dfy`, `Sequences.dfy`, `Wrappers.dfy` | line splitting, stripping and joining of strings; selections of sequences; optional values |
| `Diffs.dfy` | line endings, changed lines and file names of diffs |
| `PatchQueue.dfy` | class `PatchQueue`, one caller at a time: the queue, its Redis mirror, the test-fix loop |
| `PatchRace.dfy` | any number of concurrent callers of the patch queue |
| `EmbedCache.dfy` | the LRU embedding cache and batches of embeddings |
| `FileWatcher.dfy` | class `FileWatcher`: the registry of hashes against the disk |
| `RegistryRace.dfy` | the same for one path, with the awaits inside the processing of an event |
| `Chunker.dfy` | `chunk_file`: symbols of a syntax tree, windows of lines |
| `TokenStream.dfy` | an agent's outbox and the reader of its token stream |
| `AgentBus.dfy` | the in-process event queues of the sessions |
| `ContextBudget.dfy` | trimming a conversation, and the token budget of a prompt |
| `Clusters.dfy` | clustering failures by distance |

Where a protocol is proved over steps, the step functions are the specification; the classes carry out
the same steps on fields and are proved to agree with them.

## What the proofs found

- A task record without `role` or `desc` raises between taking its lease and the `try` that releases it
  (orchestrator/task_queue.py:281-290). The task fails, but its lease stays: `Scheduler.TaskQueue.LoadAndExecute`
  says that exactly these leases remain.
- The comment on leases (orchestrator/task_queue.py:102-103) says that an expired lease makes a task
  retryable. Only pending tasks are ever ready, so it does not; and a lease that ends while its worker is
  inside admits a second one (`Leases.EarlyDropAdmitsAnother`).
- Nothing takes a patch off `_queue`, so `MAX_PATCH_QUEUE_DEPTH` counts every patch ever enqueued although
  the error message says "pending" (`PatchQueue.PatchQueue.SettleThenEnqueue`). The depth is checked under
  one lock and the patch appended under another, so `n` callers can exceed any limit by `n - 1`, and by no
  more (`PatchRace.DepthReached`, `PatchRace.DepthBound`). It holds in all runs exactly when at most one
  caller enqueues, or when it is zero (`PatchRace.DepthHeld`).
- `recover_from_redis` lists keys by `patches:{session}:*`. For a session id without glob characters it counts
  the unsettled patches of that session exactly when no other session with an unsettled patch has an id that
  goes on after this one and a colon; otherwise it counts those too (`PatchQueue.PatchQueue.RecoverFromRedis`,
  `PatchQueue.ColonsMix`).
- `test_fix_loop` does not check that its patch is still pending. An applied or rejected patch that is run
  again and conflicts becomes pending without being saved (`PatchQueue.AppliedPatchRevived`); the saved keys
  are right after a call exactly when this does not happen (`PatchQueue.ApplyMirrors`,
  `PatchQueue.PatchQueue.TestFixLoop`). And when the tests fail after the last attempt it calls the patch it
  has just applied a conflict, although it is live in the workspace; "applied" is final only for the other
  callers of the queue.
- Ids made up during decomposition can collide with explicit ones, and `load_plan` then rejects the plan
  with the message about a cycle (`Decomposition.MadeUpIdCollides`).
- `_full_scan` removes nothing from the registry: entries left from files deleted while the watcher was not
  running stay (`FileWatcher.FileWatcher.FullScan`).
- The stream reader can miss tokens. Its timer cancels a `get` that has been woken but has not resumed, and
  the timeout branch does not look at the outbox again. What a stopped reader has missed is exactly what was
  accepted since it was last suspended: before its timer went off (`TokenStream.EarlyTokenIsMissed`) or after
  (`TokenStream.LateTokenIsMissed`). It misses nothing exactly when nothing was accepted in that time, and
  never when it stops at the sentinel (`TokenStream.StoppedReader`).
- A concurrent caller can settle a patch and delete its key before the enqueue that appended it has saved it;
  the key then stays. Between calls the saved keys are right exactly when this has not happened
  (`PatchRace.KeysMatchUnlessLate`, `PatchRace.SettledBeforeSaved`).
- Two coroutines of the watcher can be at work on one path, and the older may write last
  (`RegistryRace.Overtaken`); a coroutine can also take a newer event's timer out of the dictionary, so that
  two timers run for one path (`RegistryRace.TwoTimers`). If coroutines of a path do not overlap the registry
  settles to the disk (`RegistryRace.OrderlySettles`); in general it does exactly when the last to write has
  written the last version, or one with its hash (`RegistryRace.ExactUnlessOvertaken`).
- The tiers of `build_prompt` say that memories are cut before recent messages. Memories go only when fewer
  than 512 tokens remain after them, so recent messages can be cut while memories stay
  (`ContextBudget.MemoriesOutlastRecent`; `ContextBudget.MemoriesGoFirst` says exactly when the order is kept).

## Model

| member | source | states |
|---|---|---|
| DagValidation.ValidateDag | orchestrator/task_queue.py:327-352 | Accepts a list exactly when its ids are pairwise distinct and some order puts every task after all its dependencies; reports a missing dependency exactly when one is not listed, and then the first one. |
| DagValidation.Counting | orchestrator/task_queue.py:342-352 | When the queue has run empty, the number of visited nodes equals the length of the list exactly for acceptable plans, so duplicate ids are always rejected by the final count. |
| DagValidation.Release | orchestrator/task_queue.py:344-350 | One turn of the loop pops a node never popped before, lowers the in-degrees of its dependents and queues exactly those that reach zero. |
| DagValidation.BuildGraph | orchestrator/task_queue.py:336-341 | In-degrees and adjacency lists count the dependency edges, repeated ones as often as they occur. |
| Decomposition.ValidateTaskDag | orchestrator/agent_manager.py:568-585 | Fails exactly when the value is not a list or some dictionary has dependencies that cannot be iterated. Otherwise each dictionary gives one entry: of its listed dependencies, in order and with repetitions, exactly those that some earlier effective id equals; a known role as it is and coder for any other; its description or the empty one. |
| Decomposition.NormalizedMeaning | orchestrator/agent_manager.py:573-584 | The same of the entry at every position of every list, without mention of how it is computed. |
| Decomposition.DictsMeaning | orchestrator/agent_manager.py:573-575 | Items that are not dictionaries are passed over, and the order of the others is kept. |
| Decomposition.DigitsMeaning | orchestrator/agent_manager.py:576 | The number in a made-up id is the decimal numeral of the position, without leading zeros. |
| Decomposition.NormalFormsBackward | orchestrator/agent_manager.py:576-584 | Dependencies of normalized tasks name earlier entries only; each id is the item's own or "t" and its position. |
| Decomposition.ListOrderIsTopological | orchestrator/agent_manager.py:576-584 | With distinct ids, the order of the normalized list is a topological order. |
| Decomposition.DecomposeAndValidate | orchestrator/agent_manager.py:568-585 | A decomposed plan passes the scheduler's validation exactly when the effective ids of its items are distinct, which can be read off the input. |
| Decomposition.MadeUpIdCollides | orchestrator/agent_manager.py:576 | A concrete list whose explicit id equals the id made up for another item. |
| Batch.RunKeepsInv | orchestrator/task_queue.py:163-191 | Under every interleaving of a batch's coroutines, with stale snapshots, any agent outcomes and foreign leases that change at any time, the invariant holds in every reachable state. |
| Batch.RanStaysOk | orchestrator/task_queue.py:163-191 | In each of those states a running, complete or failed task has all of its dependencies complete. |
| Batch.StepWrites | orchestrator/task_queue.py:163-191 | No step overwrites a complete, failed or blocked record: it only turns pending into blocked, or the running status of the mover's own task into complete if its agent has succeeded, and into failed if it has not or if the record is unusable. |
| Batch.BatchOutcome | orchestrator/task_queue.py:177-191 | When a batch is over the records are consistent again, and of the pending tasks it has blocked exactly those that transitively need one of its failures. |
| Batch.EveryRunEndsAlike | orchestrator/task_queue.py:246-255 | The same for whole runs, whatever the order of the steps. |
| Batch.SomeoneCanMove | orchestrator/task_queue.py:246-255 | Until all coroutines have finished, some one can move: a batch does not get stuck. |
| Batch.StepsEnd | orchestrator/task_queue.py:163-191 | Every step lowers a rank, so every run of a batch ends, the fixpoint loop over the snapshot included. |
| Scheduler.ReadyInMeaning | orchestrator/task_queue.py:137-145 | The ready tasks are exactly the pending ones with all dependencies complete, in list order. |
| Scheduler.TaskQueue.LoadPlan | orchestrator/task_queue.py:117-133 | Stores the plan with every task pending if it is acceptable; otherwise nothing is left, as the old plan has been cleared. |
| Scheduler.TaskQueue.GetSessionStatus | orchestrator/task_queue.py:147-161 | Lists the stored tasks in order; the total is their number and the sum of the five counts, each the number of tasks with that status. |
| Scheduler.CountStatusMeaning | orchestrator/task_queue.py:147-161 | A count is the size of the set of listed tasks with that status. |
| Scheduler.AllTasksMeaning | orchestrator/task_queue.py:147-161 | The listed answer has the stored record of every task at the place of its id. |
| Scheduler.RunBatch | orchestrator/task_queue.py:242-322 | A batch keeps the records consistent. Each of its tasks is left running if its lease was taken; otherwise it is complete if and only if its one agent run succeeded, and failed if that ended "not done" or raised, or without a run if its record is unusable; its lease stays only in that last case or if it was taken. Other tasks stay or become blocked. |
| Scheduler.TaskQueue.MarkRunning | orchestrator/task_queue.py:240-241 | Setting ready tasks to running keeps the records consistent. |
| Scheduler.TaskQueue.ExecutePlan | orchestrator/task_queue.py:229-265 | Terminates for any agent outcomes and interleavings, while other processes take and release leases at any time. Every round runs the first maxParallel ready tasks as one batch, and nothing is ready at the end; what has become of each executed task follows the outcome of its agent; a task is blocked exactly when it needs a failed one, and one still pending waits for one still running. |
| Scheduler.TaskQueue.LoadAndExecute | orchestrator/main.py:687-712 | An unacceptable plan runs nothing. If no other process leases a task of the plan, nothing is left pending or running: a task is complete exactly if its agent ran once and succeeded, failed exactly if its agent ran once and did not, or its record is unusable, and blocked exactly when it needs a failed one. |
| Scheduler.PendingWaits | orchestrator/task_queue.py:236-238 | When nothing is ready, every pending task transitively waits for a running one. |
| Scheduler.BlockedExactly | orchestrator/task_queue.py:177-191 | In consistent records a task is blocked exactly when it transitively needs a failed one. |
| Leases.KeptUnlessEarly | orchestrator/task_queue.py:94-113 | A step breaks the lease invariant exactly when it drops a lease whose worker is inside. |
| Leases.RunsExclude | orchestrator/task_queue.py:280-322 | In all runs of any number of workers without such a drop, at most one worker per task is between acquire and release. |
| Leases.LeaseMeansInside | orchestrator/task_queue.py:280-322 | With usable records and no dying process, a lease key exists exactly while a worker is inside. |
| Leases.EarlyDropAdmitsAnother | orchestrator/task_queue.py:117-123 | After an early drop the next worker gets in beside the first. |
| Leases.LoserMustNotRelease | orchestrator/task_queue.py:281-285 | Were a worker that lost the race to reach the unconditional delete, it would be an early drop. |
| Diffs.NormalizedHasNoCr | orchestrator/patch_queue.py:83-85 | No CR is left. |
| Diffs.NormalizeIdempotent | orchestrator/patch_queue.py:83-85 | Normalizing twice is normalizing once. |
| Diffs.SameLines | orchestrator/patch_queue.py:83-85 | Normalizing changes no line of any string. |
| Diffs.NormalizingIsInvisible | orchestrator/utils.py:53-67 | Changed-line count and file names are the same for the raw and the stored diff. |
| Diffs.ExtractFilePaths | orchestrator/utils.py:61-67 | The loop collects the paths of the diff in order; `Diffs.PathsMeaning` says which these are. |
| Diffs.PathsMeaning | orchestrator/utils.py:61-67 | The paths are, in order, the stripped rests of exactly those lines that begin with "+++ b/". |
| Diffs.ChangesMeaning | orchestrator/utils.py:53-58 | The count is the number of lines that begin with a plus or a minus and not with three of them. |
| Diffs.NormalizeStep | orchestrator/patch_queue.py:83-85 | The two replacements turn CR LF, and any other CR, into one LF and keep every other character. |
| Text.StripMeaning | orchestrator/utils.py:66 | Stripping takes away the longest runs of white space at both ends and nothing else. |
| Text.LinesMeaning | orchestrator/utils.py:56-64 | A line is free of line breaks; with its end it is followed by one break, which only the last may lack. |
| Text.CrLfTogether | orchestrator/utils.py:56-64 | CR LF is one line break: no line ends in CR when the next begins with LF. |
| PatchQueue.SnapshotFileHashes | orchestrator/patch_queue.py:110-119 | Hashes exactly the given paths; an unreadable file counts as new. |
| PatchQueue.CheckConflict | orchestrator/patch_queue.py:122-133 | Reports a conflict exactly when some baseline hash differs from the current one. |
| PatchQueue.AttemptsEnd | orchestrator/patch_queue.py:268-280 | A pending patch is settled after at most MAX_RETRIES - retries applications, all but the last of which put it back. |
| PatchQueue.DrainSettlesInOrder | orchestrator/patch_queue.py:250-257 | process_all settles the pending patches, each once, in enqueue order. |
| PatchQueue.DrainCalls | orchestrator/patch_queue.py:250-257 | It makes between one and MAX_RETRIES - retries calls for each pending patch and none for any other. |
| PatchQueue.PatchQueue.ProcessNext | orchestrator/patch_queue.py:238-248 | Takes the first pending patch of the queue through one application and keeps the Redis mirror. |
| PatchQueue.FirstPendingMeaning | orchestrator/patch_queue.py:240-244 | The patch taken is pending and no patch before it in the queue is. |
| PatchQueue.PatchQueue.ProcessAll | orchestrator/patch_queue.py:250-257 | Terminates with no patch pending, having made exactly the calls of the specification. |
| PatchQueue.PatchQueue.ApplyPatch | orchestrator/patch_queue.py:259-312 | Conflict, sandbox and live answers decide status, retries, action and whether the saved key goes. |
| PatchQueue.OutcomeMeaning | orchestrator/patch_queue.py:259-312 | Which of the answers leads to which status, retry count and action, for every patch and all answers. |
| PatchQueue.PatchQueue.Enqueue | orchestrator/patch_queue.py:198-234 | Rejects invalid diffs and a full queue without change; otherwise appends a pending patch whose baseline covers exactly the files of the stored diff, and saves it. |
| PatchQueue.PatchQueue.TestFixLoop | orchestrator/patch_queue.py:341-432 | Does exactly what `PatchQueue.FixLoop` describes, the meaning of which is `PatchQueue.FixLoopMeaning`. The action is "applied" exactly when the tests passed; every patch it has applied stays applied, but for one that is flagged after failing tests and becomes a conflict; no other patch changes; the Redis mirror is kept exactly when the first application does not put back a settled patch. |
| PatchQueue.FixLoopMeaning | orchestrator/patch_queue.py:341-432 | For any number of rounds: an attempt is followed by another exactly after its patch was applied, its tests failed and its fix is usable, and the other is made on a new patch with the session of the one before, the normalized diff of the fix and the hashes of its files. The last one is answered by its own outcome, or has passed, or has failed with all attempts used, the fix missing or invalid, or the queue full; only then is its patch flagged. |
| PatchQueue.PatchQueue.FixRounds | orchestrator/patch_queue.py:357-418 | The loop itself computes the same; it is left without an answer only with an applied patch whose tests failed, or without any attempt. |
| PatchQueue.PatchQueue.SubmitAndTest | orchestrator/main.py:666-682 | As the endpoint does, enqueues a patch and runs the loop on it; this always keeps the mirror, and a rejected diff changes nothing. |
| PatchQueue.PatchQueue.Run | orchestrator/patch_queue.py:160-175 | Any sequence of these calls ends in the state their descriptions give, and the saved keys are exactly those of the unsettled patches. |
| PatchQueue.PatchQueue.RecoverFromRedis | orchestrator/patch_queue.py:177-194 | For every session id, counts the unsettled patches whose keys the session's pattern finds; without glob characters in the id these are those of the session itself and of sessions whose ids go on after it and a colon, so the count is the session's own exactly if no such other session has an unsettled patch. |
| PatchQueue.PatchQueue.SettleThenEnqueue | orchestrator/patch_queue.py:208-213 | The depth limit depends on the patches ever enqueued, settled or not. |
| PatchQueue.PrefixFinds | orchestrator/patch_queue.py:164-182 | For all session ids, a key begins with the prefix of a session exactly if it belongs to that session or to one whose id goes on after it and a colon. |
| PatchQueue.PatternFinds | orchestrator/patch_queue.py:182 | The same for what the pattern of a session without glob characters finds. |
| PatchQueue.KeysDiffer | orchestrator/patch_queue.py:164 | Whatever the session ids, keys are equal only for the same session and the same patch. |
| PatchQueue.ColonsMix | orchestrator/patch_queue.py:182 | The pattern of session "a" finds the patches of session "a:b". |
| PatchQueue.ApplyMirrors | orchestrator/patch_queue.py:268-312 | One application keeps saved keys and unsettled patches in step exactly when it does not put back a settled patch. |
| PatchQueue.AppliedPatchRevived | orchestrator/patch_queue.py:362 | A concrete applied patch that an application puts back. |
| PatchRace.RunsAreSafe | orchestrator/patch_queue.py:238-312 | With any number of concurrent callers no patch is held by two, each is live-applied at most once, and it is applied exactly when it was last found free of conflict and accepted by sandbox and workspace. |
| PatchRace.SettledForGood | orchestrator/patch_queue.py:259-312 | Applied, rejected and conflict are final in every run of enqueue, process_next and process_all. |
| PatchRace.KeysMatchUnlessLate | orchestrator/patch_queue.py:226-230 | In every run, whenever no call is under way, the saved keys are exactly those of the unsettled patches if and only if no enqueue saved its patch after another caller had settled it and deleted its key; the same for each single patch. |
| PatchRace.StaleKey | orchestrator/patch_queue.py:160-175 | In every state of every run, a deleted key is there again exactly if it was saved after it was deleted. |
| PatchRace.SettledBeforeSaved | orchestrator/patch_queue.py:226-230 | Two callers, after whose calls the key of an applied patch is saved. |
| PatchRace.LiveAtMostOnce | orchestrator/patch_queue.py:290-312 | In every possible history of a patch the live application is the last event, and settles it. |
| PatchRace.AppliedHistory | orchestrator/patch_queue.py:268-305 | A history ends in "applied" exactly when its last events are claim, no conflict, sandbox success, live success. |
| PatchRace.DepthBound | orchestrator/patch_queue.py:206-228 | n concurrent callers can take the queue at most n - 1 patches beyond the depth limit. |
| PatchRace.DepthReached | orchestrator/patch_queue.py:206-228 | For every limit and every number n of callers some run takes the queue n - 1 patches beyond the limit. |
| PatchRace.DepthHeld | orchestrator/patch_queue.py:206-228 | All runs of n callers keep to the limit exactly when n is at most one or the limit is zero. |
| PatchRace.DepthExceeded | orchestrator/patch_queue.py:208-228 | Two callers and a limit of one: two patches queued. |
| PatchRace.AloneIsOutcome | orchestrator/patch_queue.py:238-312 | The steps of one caller with nobody else moving come to one application as the sequential model has it, saved keys included, and touch no other patch. |
| EmbedCache.LruEmbedCache.Embed | orchestrator/memory_manager.py:102-115 | After any sequential calls the cache holds exactly the last maxSize distinct texts in order of latest use, each with its raw embedding; a call hits exactly if its text is among them and always returns the raw embedding. |
| EmbedCache.LruEmbedCache.Get | orchestrator/memory_manager.py:70-74 | A found entry moves to the end. |
| EmbedCache.LruEmbedCache.Set | orchestrator/memory_manager.py:76-81 | The entry goes to the end and the oldest goes if there are too many. |
| EmbedCache.EmbedStep | orchestrator/memory_manager.py:102-115 | Touching or adding the entry of a text leads from what is kept for a history to what is kept after one more use. |
| EmbedCache.KeptMeaning | orchestrator/memory_manager.py:66-84 | A text is kept by a cache of size n exactly when some stretch at the end of the history contains it and at most n distinct texts. |
| EmbedCache.StackInclusion | orchestrator/memory_manager.py:66-84 | A smaller cache holds the latest part of a larger one, so a hit at size n is a hit at any larger size. |
| EmbedCache.BatchReturnsRaw | orchestrator/memory_manager.py:118-126 | However the calls of a batch interleave, each returns the raw embedding of its own text, and the cache stays within its size. |
| EmbedCache.BatchOnCache | orchestrator/memory_manager.py:118-126 | The same for a batch that starts on the cache object of any sequential calls. |
| EmbedCache.AloneIsEmbed | orchestrator/memory_manager.py:102-126 | A call of a batch that runs without another in between does what a sequential call does to the cache. |
| EmbedCache.KeptIsCacheOk | orchestrator/memory_manager.py:66-84 | What the cache holds for any history is within its size, each key once, each with the raw embedding of its text. |
| FileWatcher.FileWatcher.Run | orchestrator/file_watcher.py:283-328 | With an event processed in one step, along every run of file changes, worker turns, timers and passing time the object moves as the step system does; each path that is not skipped agrees with the disk or has an outstanding event, at most one timer is pending per path, and when nothing is outstanding the registry is that of a full scan. |
| FileWatcher.FileWatcher.Settle | orchestrator/file_watcher.py:283-328 | Once the files are left alone, the queue drains and one debounce window later the registry is exact. |
| FileWatcher.FileWatcher.Fire | orchestrator/file_watcher.py:299-328 | An event is processed only when no later one of its path was taken within the debounce window. |
| FileWatcher.FileWatcher.FullScan | orchestrator/file_watcher.py:250-267 | Afterwards the registry is exact exactly when it held no path that is gone or skipped. |
| FileWatcher.TakeInStep | orchestrator/file_watcher.py:286-306 | Turning a queued event into a timer, cancelling the one before, keeps every path in step. |
| FileWatcher.FireInStep | orchestrator/file_watcher.py:308-328 | Processing a timer's event keeps every path in step. |
| FileWatcher.MoveInStep | orchestrator/file_watcher.py:126-129 | Reporting a move as a deletion and a creation keeps every path in step. |
| RegistryRace.EntryIsSomeVersion | orchestrator/file_watcher.py:299-328 | With all awaits of processing apart, in every run the entry of a path is the hash of some version the file has had. |
| RegistryRace.CancelledMeaning | orchestrator/file_watcher.py:299-306 | Cancelling takes out the timer with the remembered handle and keeps all others in order. |
| RegistryRace.ExactUnlessOvertaken | orchestrator/file_watcher.py:299-328 | When nothing is outstanding, the last version has been shown at some time, and the entry is exact if and only if the coroutine that wrote last has written that version or one with the same hash. |
| RegistryRace.OrderlySettles | orchestrator/file_watcher.py:299-328 | If no timer of a path fires while a coroutine of it is under way, the entry is exact whenever nothing is outstanding. |
| RegistryRace.Overtaken | orchestrator/file_watcher.py:315-326 | A run of two overlapping coroutines that leaves the older hash, exact only if the two hashes are the same. |
| RegistryRace.TwoTimers | orchestrator/file_watcher.py:295-315 | A run that leaves two timers scheduled for one path. |
| Chunker.OutermostMeaning | orchestrator/ast_indexer.py:195-217 | visit finds exactly the target nodes that no target node encloses, in document order. |
| Chunker.Visit | orchestrator/ast_indexer.py:195-215 | Appends the chunks of those nodes that are not blank, each with its rows, name and symbol type. |
| Chunker.NodeChunksMeaning | orchestrator/ast_indexer.py:195-215 | A chunk is among them exactly if it has the rows, name, type and line numbers of one of the nodes and some row is not blank. |
| Chunker.NodeSymbolTypeMeaning | orchestrator/ast_indexer.py:140-147 | The symbol type is that of the first group of words one of which the node type contains. |
| Chunker.UncoveredMeaning | orchestrator/ast_indexer.py:221-228 | The uncovered lines are exactly the non-blank ones outside all chunks, in order. |
| Chunker.AstChunk | orchestrator/ast_indexer.py:174-240 | The symbol chunks, then one module chunk of exactly the uncovered lines if there are any: its content is these lines joined, its line numbers those of the first and the last. Every non-blank line is part of the content of some chunk. |
| Chunker.HeldInContent | orchestrator/ast_indexer.py:221-238 | A line that a chunk holds by its number stands in the content of that chunk. |
| Chunker.LineChunk | orchestrator/ast_indexer.py:243-265 | The loop terminates; its windows equal the lines they name and hold every non-blank line; a blank text becomes one chunk. |
| Chunker.WindowsKeepAll | orchestrator/ast_indexer.py:250-262 | For any size and any step up to it no non-blank line falls between windows. |
| Chunker.StartsMeaning | orchestrator/ast_indexer.py:250-262 | The windows start at the multiples of the step below the number of lines, all of them. |
| Chunker.JoinSplit | orchestrator/ast_indexer.py:248 | Splitting a text into lines with their ends and joining them gives the text back. |
| Chunker.ChunkFile | orchestrator/ast_indexer.py:152-171 | For any syntax tree over any text there is at least one chunk, and every non-blank line is part of the content of one. The chunks are those of the symbols and the module, or of lines if there is no tree or it gives none. |
| TokenStream.RunKeepsInv | orchestrator/agent_manager.py:319-351 | Along every interleaving of agent and reader: accepted tokens are the yielded ones followed by the queued ones, and the content is the concatenation of all tokens. |
| TokenStream.TokensMeaning | orchestrator/agent_manager.py:323-351 | The tokens are the non-empty ones of the lines before the first that says the stream is done, in order. |
| TokenStream.YieldedAndAnswer | orchestrator/agent_manager.py:339-351 | The reader sees a prefix of a subsequence of the model's tokens, the whole of which is the returned content; it is all of them exactly if none was dropped. |
| TokenStream.DroppedWhenFarBehind | orchestrator/agent_manager.py:341-347 | A token is dropped exactly when the reader is 1024 tokens behind. |
| TokenStream.ShortAnswerArrives | orchestrator/agent_manager.py:341-347 | An answer of at most 1024 tokens reaches a prompt reader whole, however slow its consumer is. |
| TokenStream.StoppedReader | orchestrator/agent_manager.py:454-466 | When the reader stops the agent has ended, and the accepted tokens it has not yielded are exactly those accepted since it was last suspended, so it misses none if and only if none was; there are none if it stops at the sentinel or the agent had ended before. |
| TokenStream.PromptReaderMissesNothing | orchestrator/agent_manager.py:454-466 | A reader whose timer never goes off beside an item, and that resumes at once when it goes off, yields every accepted token, even if the sentinel did not fit. |
| TokenStream.LateTokenIsMissed | orchestrator/agent_manager.py:454-466 | A concrete run, without an await between the token and the agent's failure, in which a token accepted after the timer went off is never yielded. |
| TokenStream.EarlyTokenIsMissed | orchestrator/agent_manager.py:454-466 | One in which a token accepted before the timer went off is never yielded, and is left in the outbox with the sentinel. |
| TokenStream.ReaderStops | orchestrator/agent_manager.py:454-466 | Once the agent has ended, the reader's events are bounded in number, whichever happen, sentinel or not; if it was not suspended when the agent ended it misses nothing. |
| TokenStream.ReaderCanMove | orchestrator/agent_manager.py:452-466 | The reader can go on exactly until it has stopped. |
| TokenStream.Agent.ReceiveLine | orchestrator/agent_manager.py:323-347 | One line of the model's stream: its token joins the content and, if there is room, the outbox. |
| TokenStream.Agent.EndWith | orchestrator/agent_manager.py:547-557 | Status and sentinel, the sentinel only if it fits. |
| TokenStream.Agent.Run | orchestrator/agent_manager.py:143-205 | The agent object under any schedule moves as the step system does. |
| AgentBus.QueueHistory | orchestrator/agent_bus.py:83-115 | In every run, what a queue accepted is what was taken and what is queued, in publish order; it was offered exactly the events published to its session since the last clean-up, tokens apart. |
| AgentBus.ForArchitectMeaning | orchestrator/agent_bus.py:131-152 | Of all event types only token and status are kept from the architect. |
| AgentBus.ReaderSeesItsSession | orchestrator/agent_bus.py:131-152 | Everything a reader yields is of an architect type, was published to its own session, and before the clean-up that closed its queue. |
| AgentBus.LoneReader | orchestrator/agent_bus.py:131-152 | The only reader of a queue yields exactly the architect's events among those consumed, in order, and all accepted ones by the time it stops. |
| AgentBus.DrainingStops | orchestrator/agent_bus.py:140-152 | A reader that goes on alone takes everything that is queued, yields what is for the architect, and has stopped exactly if the last item was the sentinel. |
| AgentBus.DroppedWhenFull | orchestrator/agent_bus.py:101-109 | An event is dropped exactly when 256 events are queued. |
| AgentBus.StepKeepsInv | orchestrator/agent_bus.py:75-152 | Every action of any session or reader keeps the invariant. |
| AgentBus.CleaningKeeps | orchestrator/agent_bus.py:208-223 | Dropping a session's queue, with or without room for the sentinel, keeps it. |
| AgentBus.CleaningMeaning | orchestrator/agent_bus.py:208-223 | After any run, it puts a sentinel behind what waits in that queue exactly if there is room, forgets the session and leaves every other queue alone. |
| AgentBus.SubscribedMeaning | orchestrator/agent_bus.py:138-140 | After any run, a new reader reads the open queue of its own session, the one that is there if there is one. |
| AgentBus.AgentBus.Run | orchestrator/agent_bus.py:75-223 | The bus object under any sequence of actions moves as the step system does. |
| AgentBus.AgentBus.PublishEvent | orchestrator/agent_bus.py:83-109 | The bus object moves as the specified publish does; a token changes no queue. |
| AgentBus.AgentBus.CleanupSession | orchestrator/agent_bus.py:208-223 | The bus object moves as the specified clean-up does. |
| ContextBudget.TrimConversation | orchestrator/context_manager.py:236-268 | Both branches return the longest suffix of the sanitized conversation whose cost fits the budget, nothing if the budget is negative; fails exactly when some content is a list of parts. |
| ContextBudget.OneMoreIsTooMuch | orchestrator/context_manager.py:249-268 | Stopping at the first message that does not fit yields the longest fitting suffix. |
| ContextBudget.CountMessagesTokens | orchestrator/utils.py:14-22 | The total is the sum of the messages' costs, their content being missing, a string or a list of parts. |
| ContextBudget.JoinPartsMeaning | orchestrator/utils.py:19-20 | The texts of the parts are joined in order by single blanks; parts that are not dictionaries add nothing. |
| ContextBudget.CleanMeaning | orchestrator/context_manager.py:239-242 | Sanitizing keeps every message and its role and replaces its content only. |
| ContextBudget.OnlyOneLongest | orchestrator/context_manager.py:236-268 | There is only one longest fitting suffix, so trimming is determined by its contract. |
| ContextBudget.RecentKept | orchestrator/context_manager.py:245-257 | The recent six survive whole exactly when they fit. |
| ContextBudget.MemoriesGoFirst | orchestrator/context_manager.py:18-25 | No recent message is cut while memories are kept exactly when none are kept or the recent messages fit beside them. |
| ContextBudget.MemoriesOutlastRecent | orchestrator/context_manager.py:114-128 | Whatever the tiers say, the prompt that BuildPrompt's contract allows for a budget that leaves 512 tokens beside the memories keeps them and cuts an only message of 2036 characters or more. |
| ContextBudget.BuildPrompt | orchestrator/context_manager.py:103-135 | Memories stay exactly while 512 tokens remain; the estimated total is within the budget, or else the prompt is just the tiers that are never cut. |
| Clusters.ClusterFailures | orchestrator/memory_manager.py:355-386 | The nested loops compute the clusters of the founders, where a failure joins the earliest founder within the threshold, sorted by size. |
| Clusters.ClustersPartition | orchestrator/memory_manager.py:366-384 | Each failure lies in exactly one cluster, members are within the threshold of its founder, founders of different clusters are not, and sizes do not increase. |
| Clusters.FounderMeaning | orchestrator/memory_manager.py:369-381 | A failure's founder is the earliest founder near it, or itself if there is none. |
| Clusters.NearMeaning | orchestrator/memory_manager.py:377-379 | Two failures are near exactly if their distances, 1 where missing, differ by at most the threshold. |
| Clusters.BySizeMeaning | orchestrator/memory_manager.py:384 | The sort puts larger clusters first and keeps the order of those of one size. |

## Left out

- HTTP, Redis failures and the wire protocol, ChromaDB, model servers, subprocesses: only their results are modelled, as inputs.
- The regular expressions of `validate_patch`, `sanitize_context` and `extract_diffs_from_result`: validity of a diff is an input, sanitizing an arbitrary function.
- Result and error texts of tasks and patches, time stamps, logging and metrics.
- Several sessions in one task queue: one is modelled; ids with colons in them could make the keys of two sessions coincide, which is not.
- Lease expiry inside a task: shown to break exclusion, not modelled further; exactly-once with several plan executors is not claimed.
- Scheduler.TaskQueue.ExecutePlan: MAX_PARALLEL_AGENTS is at least 1; with 0 the original would loop for ever on an empty batch.
- PatchQueue.PatchQueue.TestFixLoop: runs alone; it applies a patch without claiming it, so it is not part of the concurrent model. An exception of the test run or of the coder is not modelled.
- PatchQueue.PatchQueue.Enqueue: patch ids are a counter instead of random, and patches are values in a map instead of objects shared by queue and dictionary.
- PatchQueue.PatchQueue.RecoverFromRedis: for session ids with glob characters the count is stated by Redis's own matching, which is an input.
- EmbedCache.LruEmbedCache.Embed: the MD5 key is taken to be free of collisions and the embedding to be deterministic.
- FileWatcher.FileWatcher.Fire: a timer's firing and the processing of its event are one step; `RegistryRace` has them apart, without the clock. A file that exists can be read.
- FileWatcher.FileWatcher.Run: every change is reported by the observer, in order, and the limit of one second on the worker's wait for an event has no effect to model.
- AgentBus.AgentBus.PublishEvent: the Redis half of publishing is left out; queues are values in a pool, which the dictionary and the readers refer to by number.
- AgentBus.LoneReader: nothing is claimed about a reader's stopping, since the sentinel is dropped when the queue is full.
- ContextBudget.BuildPrompt: resolving the budget and formatting the tiers are inputs.
- Clusters.ClusterFailures: distances are reals, without rounding and without NaN.
- Preserving the old plan when a new one is rejected: `load_plan` clears before it validates.
- Routing, model registry, sessions, session hooks, skills, the debate loop and the TUI: easier than what is modelled, or transport.
