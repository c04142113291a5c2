# Verified model of a memory and retrieval backend

The repository keeps memories of users and agents in a tree of files with a vector
index beside it. This project models, in Dafny, the parts of it whose behaviour is
hard to see from one function, and proves what they keep over whole runs.

| files | what they model |
|---|---|
| `DirectoryDag`, `DirectoryProgress`, `DirectoryRuns`, `DirectoryListings`, `DirectoryBounds`, `DirectoryOutcomes`, `DirectoryContents`, `DirectoryDuplicates`, `DirectoryEventHandler` | the asyncio scheduler that summarises a directory tree bottom-up: a state machine over its atomic steps, its invariant, the theorems about all interleavings, what holds on listings that are no tree with the exact condition under which the scheduler finishes, the same said of the answers of the file system alone, and the classes that refine it |
| `OutboxTypes`, `OutboxProtocol`, `OutboxSafety` | the outbox with any number of workers, one file operation at a time, with failing writes, batches that fail as a whole, crashes, stale copies and lock expiry |
| `OutboxStore`, `OutboxCycles`, `OutboxWorker` | the classes of the store and the polling worker, and what a single worker does to the events over all its cycles |
| `HierarchicalSearch`, `ResultRanker` | best-first expansion of the directory tree with score propagation and convergence, and the final ranking |
| `SessionHistory`, `SessionManager` | the message buffer of a session, as a value with its runs, and as the classes that update it |
| `CodeChunker`, `LogFold`, `Dedup`, `TextLines` | line windows and symbol chunks of source code, folding of test logs, run-length folding of repeated lines |
| `ReactLoop`, `TokenBudget` | the extraction loop that raises its own iteration limit, and the tiered token allocation |
| `Wrappers`, `Selections` | an option type, and what it means to filter a sequence |

Protocols are state machines: a state, a set of actions, and runs as sequences of
actions; a theorem speaks about the state after every run. Code that updates objects
or variables is a class or a method with loops, tied by its postcondition to the
functions of the state machine or of the specification, about which the lemmas are.
What these functions compute is in turn stated on inputs and outputs alone: on the
answers of the file system, on raw scores, on lines and patterns, on the calls made.
Model, embedder, vector index, file listing, regular expressions, the parser and the
clock are arbitrary functions or unconstrained choices.

Assumptions, each stated where it is used: for some theorems about the directory
scheduler that the listing is a tree, and for its termination that finitely many
directories can be reached (when it finishes and what it then reports is stated for
every listing, with a concrete run that hangs); scores are real numbers over finitely
many URIs; for the accounting of `run_once`, though not for its losing nothing, that
the store does not raise and no account is named twice; event ids are never reused; a
vector upsert takes effect as a whole or not at all.

Where the code does less than its own comments say, the model follows the code:

- `try_acquire` is documented as atomic but checks and writes in two steps; mutual
  exclusion is proved for the one-step form, and a run of the two-step form that
  breaks it is given.
- Disabling tools is documented as being for one iteration; the flag stays set for the
  rest of the run, which is what bounds the loop.
- A lock that cannot be read counts as no lock, and locks are deleted without a look at
  their owner. When settling one event of a batch raises, the whole batch is settled
  once more as failed: events already done come back, and locks of other workers are deleted.
  Nothing is lost by this, but exclusion is; each of these ways to break it has its run.
- The re-read before writing is checked once: after it, other unread files pass.
- `commit` with `wait=True` leaves the session busy for ever if processing raises.
- `archive_limit` falls back on a fraction of the total when archives get nothing,
  although the total is already spent.
- `deduplicate` with `max_adjacent` below 1 makes texts longer.
- Fewer vectors than records silently drop records of an event.

## Model

| member | source | states |
|---|---|---|
| `DirectoryProgress.StepInv` | index/directory_event_handler.py:178-428 | every atomic step of the scheduler keeps the invariant that ties counters, flags, parent map, statistics, tasks and LLM slots to the phase of each directory |
| `DirectoryRuns.JobRunsOnce` | index/directory_event_handler.py:268-311 | no directory is dispatched, summarised or reported twice and no file is reported twice, in any interleaving |
| `DirectoryRuns.TaskCreatedOnce` | index/directory_event_handler.py:272-311 | no task exists twice, and none exists for a job already done |
| `DirectoryRuns.PendingCountsUnreported` | index/directory_event_handler.py:213-302 | `pending` is at every moment the number of files and sub-directories that have not reported, and the schedule-once flag is set exactly when it is zero |
| `DirectoryRuns.SummaryWaitsForChildren` | index/directory_event_handler.py:358-368 | a summary task starts only after every file and sub-directory of its directory has reported |
| `DirectoryRuns.CollectsEachChildInOrder` | index/directory_event_handler.py:338-356 | a summary is generated from exactly one entry per sub-directory, in listing order, without an abstract for a failed one |
| `DirectoryRuns.EndsBottomUp` | index/directory_event_handler.py:276-302 | directories end bottom-up |
| `DirectoryRuns.NeverStuck` | index/directory_event_handler.py:147-176 | until the root event is set, some task can run, whatever listings and summaries fail |
| `DirectoryRuns.StepUsesWork` | index/directory_event_handler.py:178-428 | a measure falls at every step |
| `DirectoryRuns.RunsAreBounded` | index/directory_event_handler.py:147-176 | a run over d directories and n files has at most 8d + n steps |
| `DirectoryRuns.DoneMeansAllDone` | index/directory_event_handler.py:404-428 | when the root event is set every directory has ended, nothing is pending, and completed + failed = total + dispatch failures |
| `DirectoryRuns.DriveOn` | index/directory_event_handler.py:147-176 | every run can be continued to one that cannot go on |
| `DirectoryRuns.FinishesExactlyWithASlot` | index/directory_event_handler.py:157-165 | every maximal run sets the root event if and only if the semaphore has a slot or the root cannot be listed |
| `DirectoryListings.StepInv` | index/directory_event_handler.py:178-428 | without assuming a tree: every step keeps the account of what each directory still waits for, including reports lost to a dispatch that returned silently |
| `DirectoryListings.FinishesExactlyWhenListedOnce` | index/directory_event_handler.py:189-190 | for every listing: a run that cannot go on has set the root event if and only if the root cannot be listed, or there is a slot and no directory within reach of the root lists the root or a listable directory that is listed elsewhere or twice; the condition is one on listing and slots alone |
| `DirectoryListings.DoneMeansFinishing` | index/directory_event_handler.py:178-428 | the event is never set, not even in passing, unless that condition holds |
| `DirectoryListings.SummarisedOnce` | index/directory_event_handler.py:272-428 | on any listing the summary of a directory passes each of its stages at most once |
| `DirectoryListings.SummaryWaitsForChildren` | index/directory_event_handler.py:271-302 | on any listing a summary starts only after every listable sub-directory ended, each of them listed there once and recorded as its child, and when no report is outstanding |
| `DirectoryListings.EndsOnceAndBottomUp` | index/directory_event_handler.py:404-428 | on any listing a directory ends once, after its listable sub-directories |
| `DirectoryListings.RegisteredOnce` | index/directory_event_handler.py:189-227 | on any listing a directory is registered by one dispatch only |
| `DirectoryBounds.StepFalls` | index/directory_event_handler.py:178-428 | on finitely many directories, tree or not, what registered and unregistered directories and tasks can still cause falls at every step |
| `DirectoryBounds.RunsAreBounded` | index/directory_event_handler.py:147-176 | a run has at most 2 steps plus, for each directory, 5, one for each file and two for each listed sub-directory |
| `DirectoryBounds.DriveOn` | index/directory_event_handler.py:147-176 | every run can be continued to one that cannot go on, and whether that one has set the event depends on the listing alone |
| `DirectoryBounds.AlwaysFinishesExactlyWhenListedOnce` | index/directory_event_handler.py:147-190 | all interleavings and outcomes set the event if and only if the root cannot be listed, or there is a slot and nothing within reach is listed twice |
| `DirectoryBounds.TreeIsListedOnce` | index/directory_event_handler.py:189-190 | a tree is a listing in which nothing is listed twice |
| `DirectoryOutcomes.StepOut` | index/directory_event_handler.py:178-428 | on any listing every step keeps the statistics, the filled slots, the reports under way and the collected entries tied to how the directories ended |
| `DirectoryOutcomes.ResultsAreHistory` | index/directory_event_handler.py:404-428 | the result recorded for a directory is the one with which it ended in the run, and there is none before |
| `DirectoryOutcomes.CollectsEachChildInOrder` | index/directory_event_handler.py:338-356 | on any listing a summary is generated from exactly one entry per sub-directory, in listing order: what it ended with, or an entry without an abstract if it failed or could not be listed |
| `DirectoryOutcomes.DoneStatistics` | index/directory_event_handler.py:404-428 | on any listing, once the root event is set, no task is left, exactly the directories within reach were registered, all have ended, none is pending, completed are those whose summary was stored, and completed + failed is their number plus one for each entry that could not be listed |
| `DirectoryContents.ListingIsCut` | index/directory_event_handler.py:194-211 | said of the answer of the file system: a directory is worked on with the first entries up to the maximum, all of them if they are fewer; sub-directories and files are exactly those entries, told apart by the last character, each part in the order of the answer |
| `DirectoryContents.FinishingIs` | index/directory_event_handler.py:189-190 | the condition for the root event on these answers alone: the root cannot be listed, or there is a slot, no entry within reach names the root, and no two entries name the same listable directory |
| `DirectoryContents.CollectsWhatIsListed` | index/directory_event_handler.py:338-356 | a summary is generated from one entry for each of the first entries that name a directory, in the order of the answer; each is the summary an earlier step stored, or one without an abstract after a failed step or a failed listing |
| `DirectoryContents.StoresWhatWasGenerated` | index/directory_event_handler.py:373-402 | the text stored for a directory is the one an earlier step generated for it from the collected entries |
| `DirectoryContents.SlotsLimitGeneration` | index/directory_event_handler.py:373-378 | at no time are more summaries being generated than the semaphore has slots |
| `DirectoryContents.CountsWhatIsListed` | index/directory_event_handler.py:404-428 | once the root event is set: the registered directories are those reached from the root over entries, none is pending, completed are those with a stored summary, and completed + failed is their number plus one for each entry that names a directory that cannot be listed |
| `DirectoryDuplicates.DuplicateListingDeadlocks` | index/directory_event_handler.py:189-214 | a directory listed twice by its parent leaves the scheduler without a task and the root event unset |
| `DirectoryEventHandler.Handler.DispatchDir` | index/directory_event_handler.py:178-245 | the imperative dispatch is the dispatch step of the state machine; a listable directory is registered with the first entries of its answer, split by their last character and in order, with one task for each, or the summary task if there are none; a failed listing is counted and reported |
| `DirectoryEventHandler.Handler.OnFileDone` | index/directory_event_handler.py:259-274 | refines the file-done step |
| `DirectoryEventHandler.Handler.OnChildDone` | index/directory_event_handler.py:276-302 | refines the child-done step |
| `DirectoryEventHandler.Handler.ScheduleSummary` | index/directory_event_handler.py:304-311 | refines the scheduling step |
| `DirectoryEventHandler.Handler.CollectChildrenSummaries` | index/directory_event_handler.py:338-356 | the loop yields one entry per sub-directory in order |
| `DirectoryEventHandler.Handler.Settle` | index/directory_event_handler.py:404-428 | statistics, then root event or report to the parent |
| `DirectoryEventHandler.Handler.Resume` | index/directory_event_handler.py:178-428 | one turn of the event loop is one step of the state machine |
| `DirectoryEventHandler.Handler.RunDag` | index/directory_event_handler.py:147-176 | the event loop, for any listing of finitely many directories, any number of slots, any choice of tasks and outcomes, comes to an end: with the root event set exactly under the condition on the answers of the file system, else hanging with nothing left to resume; every summary is made from the entries of the answer; and at the end every directory within reach has ended and the statistics count directories and entries |
| `DirectoryEventHandler.ProcessDirectoryEvent` | index/directory_event_handler.py:111-145 | refuses what is no directory URI, hangs exactly when that condition fails (on a tree: without a slot, if the root can be listed), otherwise returns with nothing pending, total = directories within reach, and completed + failed = these + entries that name a directory that cannot be listed |
| `OutboxTypes.UpsertIsUnion` | index/outbox_worker.py:568-588 | upserting a record list is a union with the map the list makes by itself |
| `OutboxTypes.UpsertReplaces` | index/outbox_worker.py:568-588 | an upsert replaces each id the list names by its last record with that id, and nothing else |
| `OutboxTypes.RecordSetIs` | index/outbox_worker.py:393-429 | the record set of an event holds exactly the ids of its records, each with its last record of that id and the vector of that text |
| `OutboxTypes.BackoffShape` | index/outbox_worker.py:289-300 | the first delay is the base delay, each later one twice the one before, all cut to the cap; in closed form the least of base * 2^k and the cap; positive if base and cap are |
| `OutboxProtocol.StepInv` | commit/outbox_store.py:540-669 | every file operation, failure, batch failure, crash and clock tick keeps the invariant that a pending file goes only after success or with the dead-letter copy in place |
| `OutboxProtocol.NoEventIsLost` | index/outbox_worker.py:546-605 | for any number of workers with stale copies, failing writes, batches that fail as a whole and crashes, a registered event nobody processed successfully keeps a durable copy with its payload |
| `OutboxSafety.IndexIsUnionOfRecordSets` | index/outbox_worker.py:546-605 | with pairwise disjoint record ids, and an embedder that returns a vector for every record, the index is always the union of complete record sets of some registered events, among them all processed ones |
| `OutboxSafety.RetriesStayBounded` | index/outbox_worker.py:452-605 | in any run of any number of workers with stale copies and batches that fail again, no retry count on file or in memory exceeds the maximum; a dead letter has reached it and is marked as failed; a pending event tried k times is due the least of base * 2^(k-1) and the cap after some past moment |
| `OutboxSafety.OneWorkerPerEvent` | commit/outbox_store.py:598-669 | no two workers ever hold one event, although locks are deleted without an owner check, provided acquiring is one step, locks can be read, no batch fails as a whole, and holders finish in time |
| `OutboxSafety.TwoStepAcquireAdmitsTwo` | commit/outbox_store.py:622-651 | with check and write as two steps, as in the code, any two workers can hold the same event at once, all other provisions being met |
| `OutboxSafety.UnreadableLockAdmitsTwo` | commit/outbox_store.py:638-640 | a lock that cannot be read counts as absent, so that a second worker joins the holder, all other provisions being met |
| `OutboxSafety.BrokenBatchAdmitsTwo` | index/outbox_worker.py:595-605 | a write that fails fails the whole batch again: the lock of an event already done, which is another worker's by then, is deleted, and a third worker joins the holder, all other provisions being met |
| `OutboxSafety.SlowHolderAdmitsTwo` | commit/outbox_store.py:628-634 | a holder that outlives the timeout is joined by a second one, all other provisions being met |
| `OutboxStore.OutboxStore.WriteEvent` | commit/outbox_store.py:318-389 | registration is all or nothing at the pending path whichever operation fails, and touches no other event |
| `OutboxStore.OutboxStore.MarkDone` | commit/outbox_store.py:415-436 | removes pending file, then lock, of this event only |
| `OutboxStore.OutboxStore.MoveToDlq` | commit/outbox_store.py:540-565 | the pending file is removed only after the dead-letter copy is written; the lock stays |
| `OutboxStore.OutboxStore.IncrementRetry` | commit/outbox_store.py:567-596 | rewrites the pending file with one retry more; the event changes in memory even if the write raises |
| `OutboxStore.OutboxStore.TryAcquire` | commit/outbox_store.py:598-651 | refused only under a readable lock younger than five minutes; otherwise the caller's lock replaces what was there |
| `OutboxStore.OutboxStore.Release` | commit/outbox_store.py:653-669 | removes the lock of this event only |
| `OutboxStore.OutboxStore.Inspect` | commit/outbox_store.py:482-537 | an entry of the scan is taken exactly when it is a readable pending event that is due and not actively locked |
| `OutboxStore.OutboxStore.ListPending` | commit/outbox_store.py:438-538 | lists exactly the due events of an account, each once |
| `OutboxStore.DueIs` | commit/outbox_store.py:482-537 | due means that the retry time has come and that no readable lock younger than five minutes lies on the event |
| `OutboxCycles.RunIdInv` | index/outbox_worker.py:452-491 | after any number of cycles and registrations the files of an event follow from its attempts |
| `OutboxCycles.RetryCountIsBounded` | index/outbox_worker.py:302-316 | the retry count on file is the number of attempts made and never exceeds the maximum |
| `OutboxCycles.HandlerRunsAreBounded` | index/outbox_worker.py:302-316 | at most max_retry + 1 acquisitions and handler runs, at most max_retry for events that are not UPSERT_CONTEXT |
| `OutboxCycles.DlqExactlyWhenExhausted` | index/outbox_worker.py:472-480 | an event is in the dead-letter queue if and only if max_retry + 1 attempts were made and none succeeded |
| `OutboxCycles.SettledForGood` | index/outbox_worker.py:469-480 | a finished or dead-lettered event is never touched again |
| `OutboxCycles.AttemptsAreSpaced` | index/outbox_worker.py:481-487 | consecutive attempts are at least the least of base * 2^(k-1) and the cap apart, so attempt n comes at least the sum of the first n delays after the first, for any list of delays that starts at the base and doubles up to the cap |
| `OutboxCycles.AttemptsSpreadOut` | index/outbox_worker.py:289-300 | in closed form: with m doublings below the cap, attempt n comes at least base * (2^m - 1) + (n - m) * cap after the first |
| `OutboxCycles.FilesFollowAttempts` | index/outbox_worker.py:452-491 | after a failure the event waits, unlocked, with one retry per attempt and due when the delay is over; a dead letter is marked as failed and keeps the lock of its last attempt; after a success no file is left; identity, account and payload stay |
| `OutboxCycles.CycleUsesRetries` | index/outbox_worker.py:546-617 | the retries left over all pending events fall by at least one for every event a cycle acquires, and stay non-negative |
| `OutboxCycles.AllSettleInTheEnd` | index/outbox_worker.py:511-619 | once nothing new is registered, max_retry + 1 cycles for each pending event settle all of them, provided each cycle takes something as long as something is pending |
| `OutboxCycles.SettledAfterEnough` | index/outbox_worker.py:511-619 | an event that every cycle takes while it is pending has succeeded or is a dead letter after max_retry + 1 cycles |
| `OutboxCycles.PendingIsDue` | index/outbox_worker.py:481-487 | after the longest delay every pending event is due again, and none is locked |
| `OutboxWorker.ShareIsComplete` | index/outbox_worker.py:410-429 | an event of a batch gets all its records if and only if the embedder returned enough vectors to reach its end; each record it gets is paired with the vector at its own place in the batch |
| `OutboxWorker.BatchRefinesSingle` | index/outbox_worker.py:570-588 | with a pointwise embedder, slicing at the recorded boundaries gives each event exactly what the single path would upsert |
| `OutboxWorker.OutboxWorker.CalculateBackoff` | index/outbox_worker.py:289-300 | the least of base * 2^retries and the cap |
| `OutboxWorker.OutboxWorker.AugmentWithEmbeddings` | index/outbox_worker.py:393-429 | the k-th record with the k-th vector, as far as both go |
| `OutboxWorker.OutboxWorker.ProcessUpsertContext` | index/outbox_worker.py:143-180 | at most one upsert, whose result is the result of the event; an event without records succeeds without one; with a pointwise embedder success means that every record went to the index with the vector of its text, in one call |
| `OutboxWorker.OutboxWorker.ProcessEvent` | index/outbox_worker.py:95-141 | an exhausted event is marked for the dead letters without its handler being entered; otherwise the result is what its handler returned, or its upsert, of which there is at most one |
| `OutboxWorker.OutboxWorker.HandleProcessingResult` | index/outbox_worker.py:452-491 | done, retry with backoff, or dead letters, decided exactly by success and retry count, with the file operations in the store's order; if a write raises the event stays where it was |
| `OutboxWorker.OutboxWorker.ListAll` | index/outbox_worker.py:531-540 | over a store that does not raise all due events of the accounts, each once if the accounts differ; in any case only events as they are on file |
| `OutboxWorker.OutboxWorker.AcquireAll` | index/outbox_worker.py:546-566 | every listed event is acquired; empty and malformed ones are settled at once, the others are all waiting and distinct; a lock that cannot be written ends the cycle, and nothing is lost |
| `OutboxWorker.OutboxWorker.EmbedBatch` | index/outbox_worker.py:568-605 | one upsert per event in order, each with the event's own share of the vectors, and exactly the events whose upsert was successful have succeeded; after a write that raises the whole batch is failed again, and nothing is lost |
| `OutboxWorker.OutboxWorker.ProcessOthers` | index/outbox_worker.py:607-619 | the other events one by one: with a store that does not raise the calls are exactly the handlers of the events that are not exhausted, in order, and each event ends as its handler says; only such events succeed that a handler said were done |
| `OutboxWorker.OutboxWorker.RunOnce` | index/outbox_worker.py:511-619 | whatever store, embedder and index do, each pending event is still pending or a dead letter or has succeeded, and success means delivery to the index, or a handler that said so; with a store that does not raise and accounts all different every due event is settled exactly once, the calls are the upserts of the batch and then the handlers of the others, nothing else on file changes, and the statistics add up |
| `OutboxWorker.OutboxWorker.RegisterAll` | commit/outbox_store.py:318-389 | a registration that raises leaves nothing pending and touches no other event |
| `OutboxWorker.OutboxWorker.RunRound` | index/outbox_worker.py:511-619 | registrations, a pause and one cycle: the guarantees of both, with what was due after the pause taken |
| `OutboxWorker.OutboxWorker.RunRounds` | index/outbox_worker.py:511-619 | registrations, pauses and cycles in alternation: whatever fails, no registered event is ever lost or counted as succeeded without delivery or a handler that said so; with a store that does not raise and accounts all different the cycles are a run of OutboxCycles, whose theorems thus hold of the worker; and if each pause is as long as the longest delay and all accounts are polled, every event has succeeded or is a dead letter max_retry + 1 cycles after its registration |
| `HierarchicalSearch.ExpandsOnceWithTheBestOffer` | retrieval/hierarchical_searcher.py:84-126 | each directory is expanded at most once and with the best score offered to it by then, and no better offer to an unexpanded directory had been made; the queue holds every offer to an unvisited directory |
| `HierarchicalSearch.OffersAreResults` | retrieval/hierarchical_searcher.py:84-126 | every offer is a starting point with its score or a non-leaf result above the threshold with its own |
| `HierarchicalSearch.ResultsAreOffered` | retrieval/hierarchical_searcher.py:84-126 | the starting points are offered first, and every non-leaf result below a directory not expanded by then is offered with its own score before the next expansion |
| `HierarchicalSearch.CollectsTheBest` | retrieval/hierarchical_searcher.py:80-123 | for each URI the collected entry is the best of its initial entry and all results above the threshold found so far, the first of several equally good ones; URIs stand in the order in which they first appeared |
| `HierarchicalSearch.InitialIsLastLeaf` | retrieval/hierarchical_searcher.py:80-82 | of several initial leaf hits with one URI the last one counts |
| `HierarchicalSearch.InitialOnlyLeaves` | retrieval/hierarchical_searcher.py:80-82 | nothing but leaf hits with a URI is collected at the start, each with its own score |
| `HierarchicalSearch.FindsEveryChild` | retrieval/hierarchical_searcher.py:110-126 | an entry was found if and only if it is a child of an expanded directory with score p, its score f satisfies f - p = alpha * (c - p) for its raw score c, or f = c if p is zero, and f exceeds the threshold; unless it is a leaf its URI is visited or queued |
| `HierarchicalSearch.DrainedIsClosed` | retrieval/hierarchical_searcher.py:93-126 | if the queue runs dry, every starting point was visited and the visited set is closed under non-leaf children whose blended score exceeds the threshold |
| `HierarchicalSearch.SearchEnds` | retrieval/hierarchical_searcher.py:93-98 | over finitely many URIs the search ends, by unvisited URIs and then queue length |
| `HierarchicalSearch.ScoresStayWithin` | retrieval/hierarchical_searcher.py:111-115 | with a weight in [0, 1] every score stays between the least and the greatest raw score |
| `HierarchicalSearch.StopsExactlyWhenQuiet` | retrieval/hierarchical_searcher.py:128-141 | the search is cut off if and only if the last max(1, configured) comparisons all found the same full top set |
| `HierarchicalSearch.ComparesTheTop` | retrieval/hierarchical_searcher.py:128-134 | there is one comparison for each expansion that had children, of the URIs of the best entries collected by then |
| `HierarchicalSearch.TopIsBest` | retrieval/hierarchical_searcher.py:143-147 | the results are the highest-scored collected entries, descending, no URI twice, as many as there are up to the limit |
| `HierarchicalSearch.SortIsStable` | retrieval/hierarchical_searcher.py:128-147 | equal scores keep the order in which they were collected |
| `HierarchicalSearch.HeapPop` | retrieval/hierarchical_searcher.py:94-95 | removes the offer with the highest score, ties by smallest URI |
| `HierarchicalSearch.BestIsFirst` | retrieval/hierarchical_searcher.py:85-94 | the popped offer precedes all others in the tuple order |
| `HierarchicalSearch.UriLessIsLexicographic` | retrieval/hierarchical_searcher.py:85-94 | ties are broken by the first character in which two URIs differ, or by a proper prefix |
| `HierarchicalSearch.RecursiveSearch` | retrieval/hierarchical_searcher.py:62-147 | the loop is a run of the state machine to its end, and what it expanded, offered, found, compared and returns has all the properties above |
| `ResultRanker.Assemble` | retrieval/result_ranker.py:50-120 | the leaves among the found entries compete, or, if there are none, the leaf hits of the seed with their own scores; one per URI and that the best, descending; a URI is left out only if the list is full of scores at least as high |
| `SessionHistory.RemovalKeepsExtracted` | session/session_manager.py:141-166 | a removal filters the messages, and the prefix below the new watermark is the old prefix filtered |
| `SessionHistory.KeptAre` | session/session_manager.py:149-155 | exactly the messages with other ids stay, as often and in the order they came |
| `SessionHistory.RewindIsExact` | session/session_manager.py:168-179 | the rewound watermark is the largest one not above the old below which no given message lies |
| `SessionHistory.BufferStaysValid` | session/session_manager.py:59-179 | over any sequence of operations the watermark lies within the messages, turns is the number of user messages, the count is the length |
| `SessionHistory.NothingIsLostOrRepeated` | session/session_manager.py:310-371 | the snapshots taken are, in order, those that were processed and the one in flight; unless messages are removed, they followed by the buffer are exactly the messages added |
| `SessionHistory.ExtractedOnce` | code-version/server/memory_service.py:4491-4552 | as long as nothing is removed or rewound and commits come when the watermark has reached the end, every message lies in the range of exactly one extraction, in order |
| `SessionHistory.CommitsAreCounted` | session/session_manager.py:337-368 | every snapshot processed counts as a commit, except the one whose processing raised in the call that waited for it |
| `SessionHistory.BusyExactlyWhen` | session/session_manager.py:315-371 | a session is busy exactly while a snapshot is being processed, in a background thread or in the call that waits for it, or for ever after such a call raised |
| `SessionHistory.StuckForGood` | session/session_manager.py:315-343 | after such a failure nothing is handed over any more |
| `SessionManager.SessionBuffer.Add` | session/session_manager.py:59-82 | appends and keeps both counts |
| `SessionManager.SessionBuffer.SnapshotAndClear` | session/session_manager.py:94-116 | returns the messages and empties the buffer |
| `SessionManager.SessionBuffer.BeginExtraction` | session/session_manager.py:118-127 | overlapping extractions share one event that is not set |
| `SessionManager.SessionBuffer.EndExtraction` | session/session_manager.py:129-139 | the event is set by the last extraction to end and not before |
| `SessionManager.SessionBuffer.RemoveMessagesById` | session/session_manager.py:141-166 | the single pass is the removal on values, with its count |
| `SessionManager.SessionBuffer.RewindWatermarkToIds` | session/session_manager.py:168-179 | the scan is the rewind on values and tells whether it changed anything |
| `SessionManager.SessionManager.GetOrCreate` | session/session_manager.py:210-218 | an unknown session starts empty, and no other changes |
| `SessionManager.SessionManager.AddMessage` | session/session_manager.py:258-273 | adds to this session only |
| `SessionManager.SessionManager.Commit` | session/session_manager.py:291-379 | refuses empty and busy sessions without processing anything; otherwise, if it waits, processing is called exactly once, with exactly the messages of this session, and reply and task status say how that ended; else a thread is recorded with exactly these messages; no other session changes |
| `SessionManager.SessionManager.FinishBackground` | session/session_manager.py:353-368 | processing is called exactly once, with the snapshot the thread was started with; the entry then says failed if it raised and otherwise completed with what was archived, and the session is free again |
| `CodeChunker.SplitJoin` | code-version/extraction/code_chunker.py:118-133 | joining and splitting again loses exactly one trailing empty line |
| `CodeChunker.EndOk` | code-version/extraction/code_chunker.py:261-272 | a window holds a line; with two or more it stays within the target; it ends only where it must |
| `CodeChunker.NextFollows` | code-version/extraction/code_chunker.py:296-297 | starts strictly increase, ends never decrease, no gap; the next window repeats the fewest lines that hold the overlap, or all but the first |
| `CodeChunker.OverlapIsLeast` | code-version/extraction/code_chunker.py:302-310 | the repeated lines are the fewest that hold the overlap, or all |
| `CodeChunker.WindowsTile` | code-version/extraction/code_chunker.py:259-297 | the windows of a text tile it from its first line to its last |
| `CodeChunker.NoTextIsLost` | code-version/extraction/code_chunker.py:274-291 | every line that is not blank is in some chunk |
| `CodeChunker.FillWindow` | code-version/extraction/code_chunker.py:262-272 | the inner loop finds the end of the window |
| `CodeChunker.OverlapLineCount` | code-version/extraction/code_chunker.py:302-310 | counts the lines to repeat |
| `CodeChunker.ChunkLineWindows` | code-version/extraction/code_chunker.py:242-299 | terminates; the windows tile the text, chunks carry the text of the lines they report, numbered from 1 |
| `CodeChunker.ChunkSymbol` | code-version/extraction/code_chunker.py:104-153 | a symbol within the maximum is one chunk; a longer one is cut into the windows of its lines for the target min(max, 2500) and overlap 200, so that a chunk of several lines stays below the target; the chunks are exactly the source at their reported lines and cover its lines with text |
| `CodeChunker.ChunkPythonAst` | code-version/extraction/code_chunker.py:86-154 | the chunks of all symbols in order, each symbol cut as above, and none for symbols without a valid range |
| `TextLines.StripIsExact` | filter/core/dedup.py:71-76 | strip removes white space from both ends, all of it and nothing else |
| `Dedup.MarkerInjective` | filter/core/dedup.py:89 | the count can be read back from a marker |
| `Dedup.ExpandInvertsFolded` | filter/core/dedup.py:64-96 | expanding the markers gives back the stripped lines without leading blanks and with blank runs collapsed |
| `Dedup.FoldsRunByRun` | filter/core/dedup.py:64-96 | the text cut into its longest runs of equal lines: a blank run becomes one empty line, or none at the start, a run longer than max_adjacent its line and the note of its length, any other stays as long as it is |
| `Dedup.FoldedTwice` | filter/core/dedup.py:64-96 | folding a folded text changes nothing |
| `Dedup.NeverGrowsExactlyWhen` | filter/core/dedup.py:87-92 | no text ever gets longer if and only if max_adjacent is at least 1 |
| `Dedup.IdempotentExactlyWhen` | filter/core/dedup.py:87-92 | folding is idempotent on marker-free texts if and only if max_adjacent is at least 1 |
| `Dedup.Deduplicate` | filter/core/dedup.py:51-96 | the nested loops compute the fold, run by run, with length, inverse and idempotence |
| `LogFold.OnlyPassingTextIsLost` | filter/core/log_template.py:104-206 | the output is the input with each passing result reduced to a tick, in place, and each run of ticks written as one marker with its number and the dialect of its last |
| `LogFold.UnitsAreReadings` | filter/core/log_template.py:116-206 | the units, their ticks and their counts are those of the readings, line by line: which pattern reads a line, alone or with the next, in the order in which they are tried |
| `LogFold.MarkersCountPassed` | filter/core/log_template.py:104-191 | without markers the output is the input without its passing results, and the markers sum to their number |
| `LogFold.MarkersAreSeparated` | filter/core/log_template.py:104-110 | two markers never stand next to each other |
| `LogFold.FoldShrinks` | filter/core/log_template.py:104-206 | the output never has more lines than the input |
| `LogFold.OthersSurvive` | filter/core/log_template.py:125-204 | on input lines and patterns: a line survives unless it belongs to a passing result |
| `LogFold.FailuresSurvive` | filter/core/log_template.py:125-206 | a line that pytest reads as failing or skipped survives, also one that only the single-line unittest pattern reads so, and one that no pattern reads, alone or with the next, unless it is the second line of a passing result |
| `LogFold.CountsWithoutHeaders` | filter/core/log_template.py:116-155 | without header lines the three counts are the numbers of lines that pytest, or else unittest, reads that way |
| `LogFold.NothingToFold` | filter/core/log_template.py:202-214 | without passing results nothing changes |
| `LogFold.DropMarkersExactlyWhen` | filter/core/log_template.py:108 | dropping the lines that look like markers gives the surviving input if and only if none of its lines looks like one |
| `LogFold.MarkerTextInjective` | filter/core/log_template.py:107-108 | count and dialect can be read back from a marker |
| `LogFold.ReadUnit` | filter/core/log_template.py:116-183 | one or two lines with the verdict of the first pattern that reads them, tried in the program's order, and its dialect |
| `LogFold.FoldTestOutput` | filter/core/log_template.py:87-224 | on lines and patterns alone: the three counts are the numbers of results read that way, the output is the input with its passing results written as markers with number and label, every other line is in it, and a text without test results is handed back unchanged |
| `ReactLoop.AtMostTwoMore` | extraction/react_loop.py:208-306 | a model that calls no tools when offered none gets at most max_iterations + 2 iterations, and none if max_iterations is not positive |
| `ReactLoop.TwoMoreIsReached` | extraction/react_loop.py:258-285 | the bound is reached for every positive limit |
| `ReactLoop.HeedlessRunsOn` | extraction/react_loop.py:258-265 | a model that calls tools it was not offered is never stopped by the limit |
| `ReactLoop.AtMostTwoMoreThanDefiant` | extraction/react_loop.py:208-306 | any run makes at most max_iterations + 2 iterations, apart from those in which the model calls tools it was not offered; none if max_iterations is not positive |
| `ReactLoop.EndsOnlyFor` | extraction/react_loop.py:208-306 | the loop ends for one of three reasons: the time is up after the first turn, candidates are accepted, or an answer is empty at the limit |
| `ReactLoop.ToolsAreHistory` | extraction/react_loop.py:252-306 | tools are taken away by a turn that calls an unknown tool, or any tool at the limit, or that is empty before it, and never come back |
| `ReactLoop.ReadFilesAreHistory` | extraction/react_loop.py:442-741 | the files that count as read are those fetched beforehand, those a heeded tool call asked for, and those the re-read could read |
| `ReactLoop.AcceptedWritesWereRead` | extraction/react_loop.py:639-682 | candidates are returned only if every existing target that is not add-only was read, or after a re-read |
| `ReactLoop.RefetchesOnce` | extraction/react_loop.py:651-694 | files are re-read for safety at most once |
| `ReactLoop.RereadsOnlyIfNeeded` | extraction/react_loop.py:639-682 | a re-read answers candidates one of which would replace an existing file that nobody had read |
| `ReactLoop.RereadHidesOthers` | extraction/react_loop.py:651-652 | after a re-read another existing unread file is accepted as a target |
| `ReactLoop.ExtractionReActLoop.ExecuteToolCalls` | extraction/react_loop.py:442-506 | every URI asked for counts as read; tells whether a tool was unknown |
| `ReactLoop.ExtractionReActLoop.CheckUnreadExistingFiles` | extraction/react_loop.py:639-682 | exactly the existing targets, not add-only, that nobody read; nothing after a re-read |
| `ReactLoop.ExtractionReActLoop.AddRefetchResults` | extraction/react_loop.py:684-741 | the readable ones count as read, and no second re-read happens |
| `ReactLoop.ExtractionReActLoop.HandleContent` | extraction/react_loop.py:267-306 | candidates are checked and accepted, or re-read; an empty answer ends the loop or takes the tools away |
| `ReactLoop.ExtractionReActLoop.Run` | extraction/react_loop.py:170-321 | for any limit and any model the loop is a run of the state machine that ends one iteration after the time is up at the latest, and after max_iterations + 2 iterations apart from those in which the model calls tools it was not offered; the files that count as read are those of the history above, and without a re-read every existing target was read |
| `TokenBudget.ByPrioritySorts` | code-version/core/models.py:431-435 | tiers are served by priority |
| `TokenBudget.ByPriorityIsStable` | code-version/core/models.py:431-435 | tiers of equal priority keep their order |
| `TokenBudget.ServeIsGreedy` | code-version/core/models.py:439-453 | a pass uses up the budget or satisfies every claim, and serves none before an unsatisfied earlier one |
| `TokenBudget.AllocationFitsTotal` | code-version/core/models.py:425-464 | the allocation sums to at most the total, and to exactly the total if a tier may expand |
| `TokenBudget.AllocationRespectsTiers` | code-version/core/models.py:446-462 | only the first tier that may expand can exceed its bounds; a tier gains beyond its first share only if all before it are full |
| `TokenBudget.FloorsComeFirst` | code-version/core/models.py:439-444 | tiers that must not degrade keep their first share, and their minimum if the total covers all minimums |
| `TokenBudget.AllocationIsMonotone` | code-version/core/models.py:425-464 | raising the total never lowers a tier |
| `TokenBudget.FairIsUnique` | code-version/core/models.py:425-464 | the shares are the only amounts that are fair: minimums first and in order, nothing more for a tier while one before it lacks something to its maximum, beyond its bounds only the first tier that may expand and only when all are full, and the total used up if there is such a tier |
| `TokenBudget.NegativeTotal` | code-version/core/models.py:436-444 | a negative total gives nobody anything and stays unexceeded if and only if there is a tier that must not degrade |
| `TokenBudget.Allocate` | code-version/core/models.py:425-464 | on any tiers and any total the three loops give away no more than the total; unless two tiers share a name every tier gets its share, for a total and bounds that are not negative these are the fair amounts, and the dictionary names a tier exactly if it must not degrade or got something |
| `TokenBudget.ArchiveLimit` | code-version/core/models.py:415-418 | for any tiers and any ratio: the share of the archives, or the truncated fraction of the total exactly when the allocation does not name them; never more than the total otherwise |
| `TokenBudget.TruncatedIs` | code-version/core/models.py:415-418 | int() cuts off towards zero, by less than one |
| `TokenBudget.FallbackOvercommits` | code-version/core/models.py:415-418 | any value archive_limit may return for the default tiers is the fraction of the total up to 15000 tokens and the share of the archives above, and the limits then exceed the total exactly up to 15000 tokens if the fraction is worth a token |
| `TokenBudget.DefaultArchiveLimit` | code-version/core/models.py:406-418 | the same of the result for the default tiers; with the default ratio the limits exceed the total exactly for totals from 2 to 15000 |

## Left out

- File summaries that a directory summary also reads, the prompt, vectorisation and the fallback of the summariser: a summary is text or a failure.
- The asyncio lock of a node: its critical sections do not suspend, so each is one step.
- A directory whose listing fails at one dispatch and succeeds at a later one: the listing is one function. On a tree, where each directory is listed once, this is no restriction.
- Infinitely many directories: the condition for finishing is stated for runs that cannot go on, and such a run need not exist then.
- A negative semaphore value, which the semaphore's constructor refuses.
- Events in the imperative store are values that a method returns changed, not shared objects; aliasing between a listed event and its later copies is not modelled.
- The recursive scan for outbox directories and URI checks on paths: the scan of one account yields the names below it.
- A lock or retry time that does not parse: lock files and events are well formed.
- mark_processing, which the worker does not use.
- A vector upsert that stores part of a record list before it raises.
- DELETE_CONTEXT, UPSERT_DIRECTORY and unknown event types inside the worker: one kind of event whose handler changes the index in any way.
- OutboxWorker.OutboxWorker.RunOnce: the statistics of a cycle in which the store raises or an account is named twice, when an event may be acquired a second time with a stale copy; what is promised then is that nothing is lost and that success means delivery.
- The number of attempts across several workers: a stale worker may rewrite an event another one has finished, with a lower count.
- HierarchicalSearch.RecursiveSearch: a negative limit and repeated answers of the index for one directory are not modelled; heapq is modelled by what heappop returns.
- Hotness blending after the search, content filling and relations in the ranker.
- ResultRanker.Assemble: a negative top_k is not modelled.
- Window state, tool statistics, compaction tokens, timestamps and commit_snapshot of a session; what an archive stores.
- Line breaks other than the line feed, and the parser behind the symbols of a file: a symbol is a name with a line range.
- Python's own text of a chunk besides its lines: symbol names, hashes, signatures, graph metadata.
- The characters of a folded log beyond its lines, such as the lengths in the result.
- deduplicate_with_grouping, whose loop does not skip the run it has just emitted, so that it lengthens repeated lines.
- ReactLoop.ExtractionReActLoop.Run: the clock is a number of iterations after which the time is up; files do not appear or vanish during one safety check, and the messages sent to the model are not modelled.
- TokenBudget.Allocate: the exact shares when two tiers have one name, so that a later entry of the dictionary replaces an earlier one.
- TokenBudget.ArchiveLimit: the ratio is a real number; the rounding of a floating-point product is not modelled.
- RepairJob, whose events carry no records and are rejected by the worker.
- HTTP, command line, hooks, configuration, access control and the vector indexes.
