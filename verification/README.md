# Verification of the fml task machinery and the geometry kernel

A Dafny model of four parts of the repository, with proofs of what each is for. Check it with
`dafny verify dfyconfig.toml`.

**Task queues** (`DelayedTask` to `MessageLoop`). `TaskQueueTable` gives the value of the queue table
and one function for each locked method; `TaskQueueRuns` closes it under arbitrary sequences of
calls. The classes `TaskSource`, `MessageLoopTaskQueues` and `MessageLoopImpl` keep the state the way
the program does, in objects that are updated in place, and each method is proved to perform its step. On
the steps rest the main results: dispatch refines one flat priority list, no wake-up is lost, no
task is lost or invented, ownership is a forest. `TaskEffects` reads off the fields what each operation
does to every queue.

**Thread mergers** (`ThreadMergers`, `LeaseRecords`, `RasterThreadMerger`). The lease protocol over any number of
raster mergers that share one platform queue, on top of the queue table.

**Worker pool** (`WorkerPool`, `PoolRuns`, `ConcurrentMessageLoop`). Interleaved steps of posters and
workers, with the gap between push and notify, spurious wake-ups and the worker's position visible.

**Codecs** (`Bits` to `CommandLine`). Base32 (section 6 of RFC 4648, without padding as section 3.2
allows) with its bit register, and the command-line parser and printer.

**Geometry over exact reals** (`Reals` to `Scales2D`). Near-plane clipping, cut-out, rounded
rectangles, radius scaling, arc iteration and two-dimensional scales. Square roots are parameters that
square to their argument.

Where the code's promise fails, the exact condition is proved. A wake-up is lost by attaching a loop
to a queue that already has work and by resuming a subsumed queue (its wake-up test looks at the
subsumed id), and by nothing else (`NoLostWakeup.StepKeepsArmed`); two concrete runs show it. A command line
survives printing and parsing exactly when its option names can be spelled
(`CommandLines.ParseAfterPrint`). The entries of a simplified circle are non-empty exactly from two
steps per quadrant on (`Arcs.CircleIsWellFormed`); with one step, `GetPointCount` meets an entry its
assertion excludes. Base32 decoding accepts exactly the encodings and those with one more 'A'
(`Base32.DecodeAccepts`), so it is not injective.

A few conventions. Looking up a dead queue id throws in the original and is the outcome `OutOfRange`
here. CHECK and DCHECK conditions are `requires` clauses. Tasks, closures and posts are named by
numbers. Heaps are the sequences they pop in. Ghost state records wake-ups, where tasks went, and the
bits a register holds.

## Model

| member | source | states |
|---|---|---|
| DelayedTasks.PushKeepsTasks | src/fml/task_source.cc:24-36 | Pushing on a heap, kept as the sequence it pops in, adds exactly the new task. |
| DelayedTasks.PushKeepsOrder | src/fml/delayed_task.cc:36-41 | A pushed task takes its place by time, and among tasks of one time by order number, lower first. |
| DelayedTasks.AscendingByFields | src/fml/delayed_task.cc:36-41 | Dispatch order on the fields: earlier times first, and of one time the lower order number first. |
| DelayedTasks.HeadIsLeast | src/fml/delayed_task.cc:36-41 | The head of a heap precedes all its other tasks, and popping removes only it. |
| DelayedTasks.AscendingIsCanonical | src/fml/delayed_task.cc:36-41 | The dispatch order of a set of tasks is unique, so a heap may be modelled as its sorted sequence. |
| TaskSources.VisibleCount | src/fml/task_source.cc:52-62 | The pending count is the number of tasks on offer (the secondary heap only while nothing pauses it), and emptiness is offering none. |
| TaskSources.TopIsHead | src/fml/task_source.cc:64-93 | The top comes from an unpaused heap, and its grade says which. |
| TaskSources.TopIsLeast | src/fml/task_source.cc:38-93 | The top is the (time, order)-least task on offer, and popping its grade removes exactly it. |
| TaskSources.RegisterAdds | src/fml/task_source.cc:24-36 | Registering adds the one task to what is held and hides nothing that was on offer. |
| TaskSources.TaskSource.ShutDown | src/fml/task_source.cc:19-22 | Both heaps are emptied; the pause count stays. |
| TaskSources.TaskSource.RegisterTask | src/fml/task_source.cc:24-36 | The task goes on the heap of its grade. |
| TaskSources.TaskSource.PopTask | src/fml/task_source.cc:38-50 | The head of the heap of that grade goes. |
| TaskSources.TaskSource.GetNumPendingTasks | src/fml/task_source.cc:52-58 | The number of tasks on offer. |
| TaskSources.TaskSource.IsEmpty | src/fml/task_source.cc:60-62 | True exactly when no task is on offer. |
| TaskSources.TaskSource.Top | src/fml/task_source.cc:64-93 | The least task on offer, over all four branches. |
| TaskSources.TaskSource.PauseSecondary | src/fml/task_source.cc:95-97 | One pause request more. |
| TaskSources.TaskSource.ResumeSecondary | src/fml/task_source.cc:99-102 | One pause request less; each resume answers a pause. |
| TaskQueueTable.PendingIsVisible | src/fml/message_loop_task_queues.cc:341-358 | HasPendingTasksUnlocked says whether the queue's flat list (its own and its subsumed queues' tasks on offer, nothing if it is subsumed) is non-empty. |
| TaskQueueTable.FirstOfBoth | src/fml/message_loop_task_queues.cc:365-400 | Comparing the tops of two groups of sources gives the first task of both groups together. |
| TaskQueueTable.NextExists | src/fml/message_loop_task_queues.cc:365-400 | A queue with pending tasks has a next task. |
| TaskQueueTable.NextIsUnique | src/fml/message_loop_task_queues.cc:365-400 | And only one, in one source: the visiting order of the subsumed set does not matter. |
| TaskQueueTable.SubmittedIsValid | src/fml/message_loop_task_queues.cc:96-115 | Registering keeps heaps ordered, order numbers unique and ownership a forest, on live and dead queues. |
| TaskQueueTable.LinkedIsValid | src/fml/message_loop_task_queues.cc:216-264 | Linking two queues that pass Merge's tests keeps the table valid. |
| TaskQueueTable.UnlinkedIsValid | src/fml/message_loop_task_queues.cc:266-307 | Unlinking an owned queue keeps the table valid. |
| TaskQueueTable.ResumedIsValid | src/fml/message_loop_task_queues.cc:330-339 | Resuming keeps the table valid. |
| TaskQueueTable.WokenIsValid | src/fml/message_loop_task_queues.cc:146-151 | A wake-up touches the log alone. |
| TaskQueueRuns.PoppedIsValid | src/fml/message_loop_task_queues.cc:122-144 | The next task heads a heap of the queue that holds it, so popping by grade removes that task, from what is held and from what is on offer. |
| TaskQueueRuns.DisposeIsValid | src/fml/message_loop_task_queues.cc:69-79 | Disposing of a queue and its subsumed queues keeps the table valid. |
| TaskQueueRuns.GroupsAreDisjoint | src/fml/message_loop_task_queues.h:106-125 | Two queues with loops of their own serve disjoint groups of live queues. |
| TaskQueueRuns.StepIsValid | src/fml/message_loop_task_queues.cc:54-339 | Every operation keeps the table valid: ownership a forest over live queues, heaps in order, each order number naming one task in one queue. |
| TaskQueueRuns.Run | src/fml/message_loop_task_queues.cc:54-339 | Every table reachable by any sequence of calls is valid. |
| TaskConservation.StepBalances | src/fml/message_loop_task_queues.cc:54-339 | Every operation keeps registered = delivered + held + dropped, as multisets of tasks. |
| TaskConservation.RunBalances | src/fml/message_loop_task_queues.cc:54-339 | The same over every run. |
| TaskConservation.PendingCountsAddUp | src/fml/message_loop_task_queues.cc:153-169 | The counts that GetNumPendingTasks reports for all live queues add up to the counts of all live sources. |
| TaskConservation.MergingKeepsTotals | src/fml/message_loop_task_queues.cc:216-307 | Merge and Unmerge, successful or not, leave every source and the reported total unchanged. |
| TaskOwnership.OwnershipIsAForest | src/fml/message_loop_task_queues.h:106-125 | Over every run: s is in owner_of(q) iff s is live and subsumed_by(s) is q; no queue owns itself, no owner is subsumed, links name live queues, and each queue is an owner, subsumed or independent. |
| TaskOwnership.DisposeLeavesNoTrace | src/fml/message_loop_task_queues.cc:69-79 | After Dispose of a queue that is not subsumed exactly its group is gone and no entry names a queue that is. |
| TaskOwnership.MergeThenUnmerge | src/fml/message_loop_task_queues.cc:216-307 | A Merge that links two queues followed by its Unmerge restores the table, the log of wake-ups aside. |
| TaskOwnership.RefusedChangesNothing | src/fml/message_loop_task_queues.cc:216-307 | A refused Merge or Unmerge changes nothing; Merge is refused only for an owner that is subsumed or a subsumed that owns or is subsumed; Unmerge succeeds exactly on an owned queue. |
| TaskOwnership.CallsDecideOwnership | src/fml/message_loop_task_queues.cc:216-307 | After Merge the owner owns the queue iff the call returned true, after Unmerge it does not and the call says whether it did; no other pair changes. |
| TaskDispatch.NextIsLeast | src/fml/message_loop_task_queues.cc:365-400 | The task PeekNextTaskUnlocked finds is the least of the flat list. |
| TaskDispatch.WakesForLeast | src/fml/message_loop_task_queues.cc:146-151 | A loop is woken for the time of the least task of its flat list, and never for an empty list. |
| TaskDispatch.PoppedTakes | src/fml/message_loop_task_queues.cc:122-144 | Popping it removes it and no other task from the flat list and from one source; nothing else moves. |
| TaskDispatch.DispatchIsFlat | src/fml/message_loop_task_queues.cc:122-144 | GetNextTaskToRun refines one flat priority list: it hands out exactly the least task if that is due, removing only it, and otherwise removes nothing and nothing in the list is due. |
| TaskDispatch.HandsOutOldestOfEarliest | src/fml/message_loop_task_queues.cc:122-144 | The task handed out has the earliest time on offer and, of that time, the lowest order number: first in, first out. |
| TaskDispatch.SubsumedYieldsNothing | src/fml/message_loop_task_queues.cc:341-358 | A subsumed queue never yields a task. |
| TaskDispatch.ListedOnce | src/fml/message_loop_task_queues.cc:96-115 | A flat list names each task at most once. |
| TaskEffects.RegisterTouchesItsQueue | src/fml/message_loop_task_queues.cc:104-105 | The task goes to the queue that was named, merged or not, on the heap of its grade; no other source and no link changes. |
| TaskEffects.RegisterAddsTask | src/fml/message_loop_task_queues.cc:96-115 | The same for all queues at once. |
| TaskEffects.RegisterOnDeadQueue | src/fml/message_loop_task_queues.cc:96-105 | On a dead queue only the order number is spent. |
| TaskEffects.RegisterWakes | src/fml/message_loop_task_queues.cc:106-114 | The loop that serves the queue, its owner's if subsumed, is woken for the earliest task of its list, and no other. |
| TaskEffects.GetNextWakes | src/fml/message_loop_task_queues.cc:122-144 | The loop is woken for the task found, due or not, and no other loop. |
| TaskEffects.MergeWakes | src/fml/message_loop_task_queues.cc:256-261 | A linking Merge wakes the owner alone, for its grown list. |
| TaskEffects.UnmergeWakes | src/fml/message_loop_task_queues.cc:295-304 | An Unmerge wakes the owner, then the queue let go, each for its own list. |
| TaskEffects.ResumeWakes | src/fml/message_loop_task_queues.cc:330-339 | A resume wakes the resumed queue itself, if it has a loop and pending tasks. |
| TaskEffects.CreateAddsOne | src/fml/message_loop_task_queues.cc:54-60 | One new empty entry under the next id; all others stay. |
| TaskEffects.SetWakeableTouchesItsQueue | src/fml/message_loop_task_queues.cc:208-214 | That queue gets a loop; nothing else of any queue changes and nobody is woken. |
| TaskEffects.PauseTouchesItsQueue | src/fml/message_loop_task_queues.cc:325-328 | The pause count of that queue's own source rises by one, nothing else. |
| TaskEffects.ResumeTouchesItsQueue | src/fml/message_loop_task_queues.cc:330-339 | The pause count of that queue's own source falls by one; heaps, links and other sources stay. |
| TaskEffects.DisposeTasksEmptiesGroup | src/fml/message_loop_task_queues.cc:81-90 | Both heaps of exactly the queue and the queues it owns are emptied; pauses, links and other queues stay. |
| TaskEffects.DisposeKeepsCounters | src/fml/message_loop_task_queues.cc:69-79 | Disposing wakes nobody and frees no id. |
| TaskEffects.MergeWritesTwoLinks | src/fml/message_loop_task_queues.cc:256-257 | A linking Merge writes one link each way and nothing else of any entry. |
| TaskEffects.UnmergeErasesTwoLinks | src/fml/message_loop_task_queues.cc:295-296 | An Unmerge erases those two and nothing else. |
| TaskEffects.VisibleIs | src/fml/task_source.cc:52-58 | A task is on offer unless it is of the secondary grade and its source is paused. |
| TaskEffects.FlatListIs | src/fml/message_loop_task_queues.cc:341-358 | The flat list is what the queue and the queues it owns offer; a subsumed queue has none. |
| NoLostWakeup.StepKeepsArmed | src/fml/message_loop_task_queues.cc:96-363 | If no loop sleeps past a task before a step, the same holds after it if and only if the step is safe: a loop is attached only to a queue without pending tasks, and a paused source of a subsumed queue is resumed only when its tasks come no earlier than the owner's last wake-up. |
| NoLostWakeup.SetWakeableExactly | src/fml/message_loop_task_queues.cc:208-214 | Attaching a loop to a queue never woken leaves it armed exactly when nothing is pending. |
| NoLostWakeup.ResumeExactly | src/fml/message_loop_task_queues.cc:330-339 | ResumeSecondarySource on a subsumed queue wakes nobody; the owner stays armed exactly when the tasks brought back are due no earlier than its last wake-up. |
| NoLostWakeup.NoWakeupIsLost | src/fml/message_loop_task_queues.cc:96-363 | After every safe run, a non-subsumed queue with a loop that offers a task was last woken for a time no later than that of any task it offers. |
| NoLostWakeup.LateLoopLosesWakeup | src/fml/message_loop_task_queues.cc:208-214 | A concrete run whose last step, attaching a loop to a queue that has a task, loses the wake-up. |
| NoLostWakeup.SubsumedResumeLosesWakeup | src/fml/message_loop_task_queues.cc:330-339 | A concrete run whose last step, resuming a queue merged while its task was paused, loses the wake-up. |
| MessageLoopTaskQueues.TaskQueueEntry.constructor | src/fml/message_loop_task_queues.cc:42-47 | A new entry: empty source, no links, no loop. |
| MessageLoopTaskQueues.MessageLoopTaskQueues.constructor | src/fml/message_loop_task_queues.cc:62-65 | The empty table. |
| MessageLoopTaskQueues.MessageLoopTaskQueues.CreateTaskQueue | src/fml/message_loop_task_queues.cc:54-60 | A new id and a new entry with objects of its own; nothing else moves. |
| MessageLoopTaskQueues.MessageLoopTaskQueues.Dispose | src/fml/message_loop_task_queues.cc:69-79 | The queue and its subsumed queues leave the table and their tasks go to the ledger as dropped; a dead id throws. |
| MessageLoopTaskQueues.MessageLoopTaskQueues.DisposeTasks | src/fml/message_loop_task_queues.cc:81-90 | The queue and its subsumed queues are emptied; a dead id throws. |
| MessageLoopTaskQueues.MessageLoopTaskQueues.RegisterTask | src/fml/message_loop_task_queues.cc:96-115 | The new state is that of the table step Register: order number spent, task submitted to the queue named, the loop that serves it woken for the least task of its list; a dead id throws. |
| MessageLoopTaskQueues.MessageLoopTaskQueues.HasPendingTasks | src/fml/message_loop_task_queues.cc:117-120 | Whether the flat list is non-empty; a dead id throws. |
| MessageLoopTaskQueues.MessageLoopTaskQueues.HasPendingTasksUnlocked | src/fml/message_loop_task_queues.cc:341-358 | The loop over the subsumed set computes it. |
| MessageLoopTaskQueues.MessageLoopTaskQueues.PeekNextTaskUnlocked | src/fml/message_loop_task_queues.cc:365-400 | The comparison loop over the sources finds the unique next task and its holder. |
| MessageLoopTaskQueues.MessageLoopTaskQueues.GetNextTaskToRun | src/fml/message_loop_task_queues.cc:122-144 | Result and new state are those of the table step GetNext. |
| MessageLoopTaskQueues.MessageLoopTaskQueues.WakeUpUnlocked | src/fml/message_loop_task_queues.cc:146-151 | The wake-up is logged if the queue has a loop. |
| MessageLoopTaskQueues.MessageLoopTaskQueues.GetNumPendingTasks | src/fml/message_loop_task_queues.cc:153-169 | The length of the flat list; a dead id throws. |
| MessageLoopTaskQueues.MessageLoopTaskQueues.SetWakeable | src/fml/message_loop_task_queues.cc:208-214 | The loop is attached, nobody is woken. |
| MessageLoopTaskQueues.MessageLoopTaskQueues.Merge | src/fml/message_loop_task_queues.cc:216-264 | Result and new state are those of the table step Merge, with the order of tests and throws of the code. |
| MessageLoopTaskQueues.MessageLoopTaskQueues.Unmerge | src/fml/message_loop_task_queues.cc:266-307 | Result and new state are those of the table step Unmerge. |
| MessageLoopTaskQueues.MessageLoopTaskQueues.Owns | src/fml/message_loop_task_queues.cc:309-317 | Membership in the subsumed set; a dead owner throws. |
| MessageLoopTaskQueues.MessageLoopTaskQueues.GetSubsumedTaskQueueId | src/fml/message_loop_task_queues.cc:319-323 | The subsumed set; a dead owner throws. |
| MessageLoopTaskQueues.MessageLoopTaskQueues.PauseSecondarySource | src/fml/message_loop_task_queues.cc:325-328 | One pause request more on that source. |
| MessageLoopTaskQueues.MessageLoopTaskQueues.ResumeSecondarySource | src/fml/message_loop_task_queues.cc:330-339 | One less, and the queue itself woken if it has pending tasks. |
| MessageLoop.RoundRunsLeast | src/fml/message_loop_impl.cc:120-138 | One round of the drain loop runs the least due task, or ends with nothing due. |
| MessageLoop.FlushIsDetermined | src/fml/message_loop_impl.cc:120-138 | What a full flush runs, and in which order, is determined by the list and the time. |
| MessageLoop.MessageLoopImpl.FlushTasks | src/fml/message_loop_impl.cc:120-138 | With tasks that post nothing it ends, having run exactly the due tasks of the flat list in order (or, for a single flush, the least one if due). |
| ThreadMergers.MergedIffOwned | src/fml/shared_thread_merger.cc:25-104 | Some lease is positive iff the owner owns the subsumed queue. |
| ThreadMergers.ChecksPassExactly | src/fml/shared_thread_merger.cc:25-87 | The CHECKs and DCHECKs pass exactly when callers keep the protocol: positive terms, ExtendLeaseTo and UnMergeNowIfLastOne only while merged, no decrement of a zero lease. |
| ThreadMergers.StepKeepsInv | src/fml/raster_thread_merger.cc:41-180 | Every step of every raster merger, and every task operation in between, keeps leases and queue table in step. |
| ThreadMergers.LeasesAgreeWithOwnership | src/fml/raster_thread_merger.h:33-42 | Over every run and for every raster merger: a positive lease exists iff Owns(owner, subsumed). |
| ThreadMergers.AnswerIsExact | src/fml/raster_thread_merger.cc:160-180 | DecrementLease answers kUnmergedNow exactly on the step from merged to unmerged, kRemainsMerged iff merged before and after, and otherwise changes nothing. |
| ThreadMergers.LoneLeaseStep | src/fml/shared_thread_merger.cc:57-79 | A decrement of a lone lease of n leaves a lone lease of n-1 and unmerges iff n was 1. |
| ThreadMergers.LeaseLasts | src/fml/raster_thread_merger.h:33-42 | A lone lease of n lasts exactly n enabled decrements. |
| ThreadMergers.LoneLeaseIsMerged | src/fml/raster_thread_merger.h:33-42 | A lone lease keeps the queues merged exactly while it is positive. |
| LeaseRecords.MergeRecordsTerm | src/fml/shared_thread_merger.cc:25-37 | A merge records exactly the term asked for and leaves a lone lease of it; no other record, merger or flag changes. |
| LeaseRecords.MergedMergeChangesNothing | src/fml/shared_thread_merger.cc:29-31 | A merge of what is merged changes nothing. |
| LeaseRecords.UnMergeDropsOwnRecord | src/fml/shared_thread_merger.cc:48-55 | The caller's record goes, all others stay. |
| LeaseRecords.DecrementLowersOwnRecord | src/fml/shared_thread_merger.cc:57-79 | One off the caller's own record; a caller without one is ignored; all others stay. |
| LeaseRecords.ExtendOverwritesOwnRecord | src/fml/shared_thread_merger.cc:81-87 | The caller's record becomes the new term, all others and the queues stay. |
| LeaseRecords.GuardedCallsDoNothing | src/fml/raster_thread_merger.cc:55-91 | With the queues the same or the merger disabled no lease call has any effect. |
| LeaseRecords.EnableChangesFlagOnly | src/fml/raster_thread_merger.cc:124-132 | Enabling and disabling change the shared flag alone. |
| LeaseRecords.NewRasterShares | src/fml/raster_thread_merger.cc:40-53 | A raster merger for its parent's two queues uses the parent's shared merger; any other gets an enabled one without leases. |
| LeaseRecords.MergeLastsItsTerm | src/fml/raster_thread_merger.h:33-42 | After an undisturbed merge with a lease of n and k decrements the queues are merged exactly while k < n, and the n-th decrement is the one that answers kUnmergedNow. |
| RasterThreadMergers.SharedThreadMerger.constructor | src/fml/shared_thread_merger.cc:18-23 | Enabled, no leases. |
| RasterThreadMergers.SharedThreadMerger.IsAllLeaseTermsZeroUnSafe | src/fml/shared_thread_merger.cc:101-104 | True iff every recorded lease is zero. |
| RasterThreadMergers.SharedThreadMerger.MergeWithLease | src/fml/shared_thread_merger.cc:25-37 | Already merged: nothing. Otherwise the queues merge and the lease is recorded. |
| RasterThreadMergers.SharedThreadMerger.UnMergeNowUnSafe | src/fml/shared_thread_merger.cc:39-46 | The queues unmerge. |
| RasterThreadMergers.SharedThreadMerger.UnMergeNowIfLastOne | src/fml/shared_thread_merger.cc:48-55 | The caller's record goes; the queues unmerge if no lease is left. |
| RasterThreadMergers.SharedThreadMerger.DecrementLease | src/fml/shared_thread_merger.cc:57-79 | The caller's lease drops by one, an unknown caller is ignored; the queues unmerge, and the answer is true, iff no lease is left. |
| RasterThreadMergers.SharedThreadMerger.ExtendLeaseTo | src/fml/shared_thread_merger.cc:81-87 | The lease is overwritten. |
| RasterThreadMergers.SharedThreadMerger.SetEnabledUnSafe | src/fml/shared_thread_merger.cc:97-99 | Only the flag changes. |
| RasterThreadMergers.RasterThreadMerger.CreateOrShareThreadMerger | src/fml/raster_thread_merger.cc:40-53 | Shares the parent's merger iff both queues match, else makes a fresh one. |
| RasterThreadMergers.RasterThreadMerger.TaskQueuesAreSame | src/fml/raster_thread_merger.cc:147-149 | True iff both queue ids are equal. |
| RasterThreadMergers.RasterThreadMerger.IsMergedUnSafe | src/fml/raster_thread_merger.cc:143-145 | Same queues, or a positive lease. |
| RasterThreadMergers.RasterThreadMerger.MergeWithLease | src/fml/raster_thread_merger.cc:55-76 | No effect when the queues are the same, disabled or merged; otherwise the shared step. |
| RasterThreadMergers.RasterThreadMerger.UnMergeNowIfLastOne | src/fml/raster_thread_merger.cc:78-91 | No effect when the queues are the same or disabled; otherwise the shared step. |
| RasterThreadMergers.RasterThreadMerger.ExtendLeaseTo | src/fml/raster_thread_merger.cc:107-117 | The same guards, then the shared step. |
| RasterThreadMergers.RasterThreadMerger.DecrementLease | src/fml/raster_thread_merger.cc:160-180 | The guards in the code's order, the shared step and the status. |
| WorkerPool.StartInv | src/fml/concurrent_message_loop.cc:16-29 | The invariant holds of a new pool, of at least one worker. |
| WorkerPool.StepKeepsInv | src/fml/concurrent_message_loop.cc:47-149 | Every step of every poster and worker keeps the invariant. |
| WorkerPool.StepKeepsBusy | src/fml/concurrent_message_loop.cc:47-82 | Before shutdown a queued task always has a worker that is awake or a poster about to notify. |
| WorkerPool.TakeAccounts | src/fml/concurrent_message_loop.cc:85-97 | What a worker has run and holds, after it took the head of the queue and its own tasks, is what it took from the queue and all broadcasts so far. |
| WorkerPool.WaitBlocksExactly | src/fml/concurrent_message_loop.cc:73-97 | A worker blocks exactly when the queue is empty, the pool runs and it has no tasks of its own; otherwise it leaves with the head of the queue first and then all its own tasks. |
| WorkerPool.NotifyWakesOne | src/fml/concurrent_message_loop.cc:70 | A notification makes at most one blocked worker ready and changes nothing else. |
| PoolRuns.NoStuckPool | src/fml/concurrent_message_loop.cc:47-82 | In no interleaving is a task queued before shutdown with every worker blocked or gone and no poster between push and notify; and a worker with tasks of its own is never blocked. |
| PoolRuns.TerminatedPoolLeaves | src/fml/concurrent_message_loop.cc:100-124 | After Terminate, whatever runs, no worker is ever blocked again and each goes through the wait at most once, counted on the run itself. |
| PoolRuns.WorkersCanLeave | src/fml/concurrent_message_loop.cc:100-124 | Once Terminate has run the workers' own steps can always bring every worker to its end. |
| PoolRuns.NobodyLeavesEarly | src/fml/concurrent_message_loop.cc:80-112 | Before it no worker has left. |
| PoolRuns.HeadCanBeTaken | src/fml/concurrent_message_loop.cc:73-114 | Before shutdown steps of workers and pending notifies alone can always dequeue the head of the queue. |
| PoolRuns.QueueCanDrain | src/fml/concurrent_message_loop.cc:73-114 | And so empty the queue, in the order the tasks were posted. |
| PoolRuns.SharedRunsOnce | src/fml/concurrent_message_loop.cc:85-103 | A shared closure is in at most one place of one worker's history: it runs at most once. |
| PoolRuns.BroadcastsReachEveryWorker | src/fml/concurrent_message_loop.cc:126-149 | What a worker has run, holds and has pending of broadcasts is all of them, once each, in posting order. |
| PoolRuns.EveryPostAccounted | src/fml/concurrent_message_loop.cc:47-149 | Each posted closure is in exactly one of: run by its caller (only after shutdown), broadcast, queued, in one worker's hands, executed; tasks are dequeued in post order. |
| ConcurrentMessageLoops.ConcurrentMessageLoop.constructor | src/fml/concurrent_message_loop.cc:16-29 | An empty pool of max(count, 1) workers. |
| ConcurrentMessageLoops.ConcurrentMessageLoop.PostTask | src/fml/concurrent_message_loop.cc:47-68 | Before shutdown the task is queued and a notify is due, after it the closure is the caller's to run. |
| ConcurrentMessageLoops.ConcurrentMessageLoop.HasThreadTasksLocked | src/fml/concurrent_message_loop.cc:138-140 | True iff the worker has tasks of its own. |
| ConcurrentMessageLoops.ConcurrentMessageLoop.GetThreadTasksLocked | src/fml/concurrent_message_loop.cc:142-149 | The worker's list, removed from the table. |
| ConcurrentMessageLoops.ConcurrentMessageLoop.WaitForWork | src/fml/concurrent_message_loop.cc:73-97 | The locked section of WorkerMain: block, or leave with at most one shared task, all own tasks and the shutdown flag. |
| ConcurrentMessageLoops.ConcurrentMessageLoop.ExecuteTaken | src/fml/concurrent_message_loop.cc:99-113 | The shared task runs first, then the own tasks in order; the worker leaves iff the flag it read was set. |
| ConcurrentMessageLoops.ConcurrentMessageLoop.PostTaskToAllWorkers | src/fml/concurrent_message_loop.cc:126-136 | The loop gives every worker one copy and wakes all. |
| ConcurrentMessageLoops.ConcurrentMessageLoop.Terminate | src/fml/concurrent_message_loop.cc:120-124 | The flag is set and no worker is left blocked. |
| BitStrings.GroupsOfStream | src/fml/base32.cc:15-44 | Cutting a stream of n-bit values into n-bit groups gives the values back and leaves the tail. |
| BitStrings.StreamOfGroups | src/fml/base32.cc:55-74 | And a bit string is the stream of its groups followed by fewer than n bits. |
| BitConverters.OrDisjoint | src/fml/base32.h:17-22 | Or-ing bits in below the held ones is addition. |
| BitConverters.PeekIs | src/fml/base32.h:32 | The shifted buffer is the next group, zeros standing in for bits not held. |
| BitConverters.ExtractIs | src/fml/base32.h:24-30 | Shift and mask drop exactly the first group. |
| BitConverters.AppendIs | src/fml/base32.h:17-22 | Shift and or append exactly the new bits. |
| BitConverters.BitConverter.constructor | src/fml/base32.h:37-45 | Nothing held, all bits free, for any lengths the static asserts allow. |
| BitConverters.BitConverter.BitsAvailable | src/fml/base32.h:33 | The number of bits held. |
| BitConverters.BitConverter.Append | src/fml/base32.h:17-22 | The held bits grow by the appended ones; the free bits stay zero. |
| BitConverters.BitConverter.Extract | src/fml/base32.h:24-30 | The first group, which leaves the held bits. |
| BitConverters.BitConverter.Peek | src/fml/base32.h:32 | The first group, padded with zeros. |
| Base32.TablesAreInverse | src/fml/base32.cc:13-53 | The two tables undo each other on all 32 digits and on all characters. |
| Base32.LetterIs | src/fml/base32.cc:13 | The alphabet of RFC 4648: A to Z for 0 to 25, 2 to 7 for 26 to 31. |
| Base32.DigitIs | src/fml/base32.cc:46-62 | Exactly A to Z and 2 to 7 are letters, with the values of RFC 4648. |
| Base32.EncodingIsBase32 | src/fml/base32.cc:15-44 | The letters are the base-32 digits of the number whose base-256 digits are the bytes, shifted by the padding of less than five bits. |
| Base32.RejectedAtBadLetter | src/fml/base32.cc:58-63 | After a bad character Decode answers false with the bytes spelled before it. |
| Base32.EncodedLength | src/fml/base32.cc:15-44 | An encoding has ceil(8n/5) letters. |
| Base32.DecodeAfterEncode | src/fml/base32.cc:15-74 | Decode(Encode(x)) = (true, x) for every byte string. |
| Base32.DecodeAccepts | src/fml/base32.cc:55-74 | Decode(s) = (true, x) if and only if s is Encode(x), or Encode(x) with one more 'A' that leaves fewer than eight zero bits. |
| Base32.EncodeAfterDecode | src/fml/base32.cc:15-74 | If Decode(s) = (true, x) and |s| = ceil(8|x|/5) then Encode(x) = s. |
| Base32.Encode | src/fml/base32.cc:15-44 | The loop computes the stream cut into fives, zero-filled. |
| Base32.Decode | src/fml/base32.cc:55-74 | The loop computes the bytes of the good prefix, and accepts iff there is no bad letter and the leftover bits are zero. |
| CommandLines.ParseAfterPrint | src/fml/command_line.cc:89-174 | For every command line: parsing its printed form gives it back if and only if each option name is non-empty without '=' after its first character. |
| CommandLines.ParsedIsWellFormed | src/fml/command_line.cc:89-137 | Whatever argv, parsed names can be spelled and the index is right. |
| CommandLines.ParsePrintParse | src/fml/command_line.cc:89-174 | For every argv, parsing CommandLineToArgv of the parsed line gives the same line. |
| CommandLines.PrintIsIdempotent | src/fml/command_line.cc:141-174 | Printing after parsing is idempotent. |
| CommandLines.PrintedText | src/fml/command_line.cc:141-174 | The printed text, piece by piece: no '=' without a value, and "--" exactly before positional arguments that start with two dashes. |
| CommandLines.EverySpelling | src/fml/command_line.h:8-22 | Every argv that parses to a command line spells its options as printed, or with a bare '=' more, and its positional arguments as printed, or after one "--" more; none is shorter than the printed one. |
| CommandLines.PositionalsAreSuffix | src/fml/command_line.h:175-195 | positional_args is exactly the suffix of argv from the reported first positional position. |
| CommandLines.NextProgress | src/fml/command_line.cc:89-130 | The builder's branches, one argument at a time, compute the grammar of the header. |
| CommandLines.IndexIsUnique | src/fml/command_line.cc:22-32 | There is one index of last positions. |
| CommandLines.CommandLineBuilder.constructor | src/fml/command_line.cc:86 | Nothing seen. |
| CommandLines.CommandLineBuilder.ProcessArg | src/fml/command_line.cc:89-130 | The fields become what the arguments so far spell; true iff this is the first positional argument. |
| CommandLines.CommandLineBuilder.Build | src/fml/command_line.cc:132-137 | The command line that the arguments seen spell. |
| CommandLines.MakeCommandLine | src/fml/command_line.cc:22-32 | The constructor's loop leaves the last position of each option name in the index. |
| CommandLines.FromIteratorsFindFirstPositionalArg | src/fml/command_line.h:178-195 | The loop parses argv and reports the first positional position, or the end. |
| CommandLines.FromIteratorsWithArgv0 | src/fml/command_line.h:210-220 | The same with argv[0] given apart. |
| CommandLines.ToArgv | src/fml/command_line.cc:141-174 | The loop prints options, a "--" if needed, and positional arguments. |
| CommandLines.HasOption | src/fml/command_line.cc:40-49 | Agrees with a linear scan for the last occurrence. |
| CommandLines.ValuesAreOccurrences | src/fml/command_line.cc:61-70 | The values stand at strictly increasing positions, which are all positions of that name. |
| CommandLines.GetOptionValues | src/fml/command_line.cc:61-70 | All values of the name, in order, each position once. |
| CommandLines.GetOptionValue | src/fml/command_line.cc:51-59 | The last of all values of the name, if there is one. |
| CommandLines.GetOptionValueWithDefault | src/fml/command_line.cc:72-80 | The last value, or the default if there is none. |
| CommandLines.LastValue | src/fml/command_line.cc:51-70 | The value at the last occurrence ends the list of values. |
| Cutouts.CutoutIsTight | src/geometry/rect.h:557-595 | Cutout is empty iff a minus o has no point, and otherwise the least rectangle holding every point of a minus o, for all o. |
| Cutouts.OnLeftAndTop | src/geometry/rect.h:557-595 | Points that remain lie on the left and top edges of the result. |
| Cutouts.NearRightAndBottom | src/geometry/rect.h:557-595 | And arbitrarily near its right and bottom edges. |
| TransformedBounds.BoundsHold | src/geometry/rect.h:169-186 | The running bounds hold every point. |
| TransformedBounds.BoundsAreLeast | src/geometry/rect.h:169-186 | And are the least box that does. |
| TransformedBounds.InterpolateAndInsert | src/geometry/rect.h:773-785 | Adds the crossing point to the array if the neighbour is visible. |
| TransformedBounds.ClipAndInsert | src/geometry/rect.h:756-769 | Adds the projected point, or up to two crossing points. |
| TransformedBounds.MakePointBounds | src/geometry/rect.h:170-186 | The loop computes the bounds of the points, none for no points. |
| TransformedBounds.GetTransformedPoints | src/geometry/rect.h:426-433 | The loop transforms the four corners in place. |
| TransformedBounds.ComputeTransformBounds | src/geometry/rect.h:472-482 | The bounds of the four transformed corners, zero for an empty rectangle. |
| TransformedBounds.ComputeTransformAndClipBounds | src/geometry/rect.h:438-468 | The four clipping steps over one array stay within it and give the bounds of what they insert. |
| PerspectiveClip.Diagonal | src/geometry/rect.h:453-464 | What clipping against neighbours ensures for adjacent corners holds for opposite ones too. |
| PerspectiveClip.Multiplier | src/geometry/rect.h:453-464 | One non-negative multiplier bounds all four corners, clipped or not. |
| ProjectedBounds.SideIsSound | src/geometry/rect.h:438-468 | A bound on what clipping keeps along the four edges bounds the whole visible part of the rectangle. |
| ProjectedBounds.BoundsAreSound | src/geometry/rect.h:438-482 | Every point of a non-empty rectangle whose w is at least kMinimumHomogenous projects into the returned box: with perspective, without, and with every corner clipped. |
| ProjectedBounds.ClipPointsAreImages | src/geometry/rect.h:756-785 | Every inserted point is the projection of a visible point of the rectangle. |
| ProjectedBounds.BoundsAreTight | src/geometry/rect.h:438-482 | Any box holding the projections of all visible points holds the returned one. |
| ProjectedBounds.NothingVisible | src/geometry/rect.h:466-467 | Clipping leaves no point exactly when no point is visible, and the zero rectangle is returned. |
| ProjectedBounds.EmptyHasZeroBounds | src/geometry/rect.h:444-475 | An empty or reversed rectangle has the zero rectangle as its bounds. |
| ProjectedBounds.AtMostFivePoints | src/geometry/rect.h:453-464 | The comment's conjecture: at most five points; 4, 5, 4, 3 or 0 as no, one, two, three or four corners are clipped. |
| Arcs.PositiveIs | src/geometry/scalar.h:90-96 | GetPositive is the same direction in [0, 360). |
| Arcs.Arc.constructor | src/geometry/arc.cc:10-35 | The sweep becomes non-negative and below 720, unchanged in size up to one turn, at least 360 iff it was, and otherwise the same up to whole turns. |
| Arcs.NextStepIs | src/geometry/arc.cc:147-150 | The first step at or after an angle, counted from its quadrant, between 0 and the step count. |
| Arcs.AddQuadrant | src/geometry/arc.cc:161-167 | A full quadrant appends its steps without gap or overlap. |
| Arcs.LastQuadrant | src/geometry/arc.cc:169-176 | Cutting or dropping the last entry ends the listing exactly at the end angle. |
| Arcs.FillQuadrants | src/geometry/arc.cc:136-178 | The loop lists exactly the steps between the nudged angles; at most 9 entries, at most 5 when the sweep is below 360; each entry start < end <= step_count with the axis of its quadrant. |
| Arcs.Arc.ComputeIterations | src/geometry/arc.cc:103-179 | All cases: nothing for no sweep, the circle when simplified, otherwise the exact listing and the two end directions. |
| Arcs.StepsBetweenAre | src/geometry/arc.cc:129-150 | The steps listed are exactly the multiples of 90/step_count in [start+nudge, end-nudge). |
| Arcs.ListedAngles | src/geometry/arc.cc:116-139 | On the arc's own fields: exactly the multiples of 90/step_count from a tenth of a step past the start up to a tenth of a step before the end. |
| Arcs.StepsBetweenAscend | src/geometry/arc.cc:161-176 | Once each, in increasing order. |
| Arcs.FlatHas | src/geometry/arc.h:28-36 | Which steps the rendering loop visits, entry by entry. |
| Arcs.CircleIsWellFormed | src/geometry/arc.cc:45-58 | The circle lists every step but the first; all its entries are non-empty if and only if step_count is at least 2. |
| RoundRects.CornerIsEllipse | src/geometry/round_rect.cc:31-65 | Within the bounds the corner test is one inequality on clamped distances. |
| RoundRects.CornerConvex | src/geometry/round_rect.cc:31-65 | One corner test accepts a convex set. |
| RoundRects.ContainsIsConvex | src/geometry/round_rect.cc:74-89 | For any bounds and non-negative radii the accepted points form a convex set. |
| RoundRects.MadeIsConvex | src/geometry/round_rect.cc:10-21 | So does every shape MakeRectRadii makes, whatever radii are asked for, as IsConvex reports. |
| RoundRects.MadeFromBounds | src/geometry/round_rect.cc:10-21 | The factory keeps the rectangle, edges put in order, with the radii shrunk by one factor to fit it, or zero radii. |
| RoundRects.ContainsIsShape | src/geometry/round_rect.cc:74-89 | The accepted set is the bounds without the four regions between a corner and its own ellipse. |
| CornerRadii.ScaledFitsAndIsMaximal | src/geometry/rounding_radii.cc:27-67 | Each edge's two radii fit it, all corners share one factor, no larger factor up to 1 fits, and below 1 some edge is met exactly. |
| CornerRadii.ScaledShrinksCorners | src/geometry/rounding_radii.cc:10-14 | Each proper corner of the given radii is shrunk by one factor in (0, 1], the same for width and height; each flat or negative one becomes zero. |
| CornerRadii.FittingRadiiAreKept | src/geometry/rounding_radii.cc:50-66 | Proper radii that fit every edge come back unchanged. |
| CornerRadii.ScaledIsIdempotent | src/geometry/rounding_radii.cc:27-67 | Scaling twice to the same bounds is scaling once. |
| CornerRadii.NothingToScale | src/geometry/rounding_radii.cc:29-33 | Empty bounds or only empty corners give zero radii. |
| CornerRadii.ScaledIsNonNegative | src/geometry/rounding_radii.cc:39-45 | Scaled radii are never negative. |
| CornerRadii.FactorIs | src/geometry/rounding_radii.cc:51-64 | After four adjustments the factor is in (0, 1], fits every edge and, below 1, meets one. |
| CornerRadii.NormalizeEmptyToZero | src/geometry/rounding_radii.cc:10-14 | Flat or negative radii become zero. |
| CornerRadii.AdjustScale | src/geometry/rounding_radii.cc:16-25 | The scale after one edge. |
| CornerRadii.ComputeScaled | src/geometry/rounding_radii.cc:27-67 | The steps in sequence compute the scaled radii. |
| Matrices.TransformIsByColumns | src/geometry/matrix.h:600-604 | The image of the origin is the last column; a step right or down adds the first or second. |
| Matrices.DirectionIsDifference | src/geometry/matrix.h:618-620 | A direction is transformed as the difference of the points it joins. |
| Matrices.PerspectiveExactly | src/geometry/matrix.h:413-415 | There is perspective exactly when w is not one at every point. |
| Matrices.PointIsDivided | src/geometry/matrix.h:587-598 | A point is divided by its w, or goes to the origin where w is zero. |
| Scales.ScalesExist | src/geometry/matrix.cc:363-366 | There are scales exactly when w is one at every point. |
| Scales.RadicandsAreNonNegative | src/geometry/matrix.cc:410-430 | For every matrix the discriminant and both radicands are non-negative. |
| Scales.ScalesBoundStretch | src/geometry/matrix.cc:363-431 | In all three branches min^2|v|^2 <= |TransformDirection(v)|^2 <= max^2|v|^2 for every v. |
| Scales.ScalesAreAttained | src/geometry/matrix.cc:363-431 | In all three branches both scales are the stretch of some non-zero direction, so the bounds cannot be improved. |
| Scales.StretchIsForm | src/geometry/matrix.h:618-620 | The squared length of a transformed direction as the quadratic form the code takes eigenvalues of. |

## Left out

- Platform message loops, threads, task runners, thread-local task grades, task observers and logging: plumbing around the dispatcher; a wake-up is an entry in a log.
- `MessageLoop.MessageLoopImpl.FlushTasks`: tasks that post further tasks while the loop drains, since the loop then need not end.
- `MessageLoopTaskQueues.MessageLoopTaskQueues.GetNextTaskToRun`: the second pending test and its TimePoint::Max branch cannot differ from the first under the lock and are not repeated.
- `MessageLoopTaskQueues.MessageLoopTaskQueues.PeekNextTaskUnlocked`: visits the subsumed set in any order rather than in id order, which is stronger.
- `RasterThreadMergers.RasterThreadMerger.DecrementLease`: the merge and unmerge callbacks, and the condition variable of WaitUntilMerged, are not modelled; UnMergeNowIfLastOne also reports success without a transition.
- `ThreadMergers.StepKeepsInv`: each call on a raster merger is one step, though two raster mergers that share a merger hold different mutexes around their guards.
- Disposing of queues that mergers still use, and merging or unmerging them behind the mergers' backs: the protocol of the mergers excludes it.
- `ConcurrentMessageLoops.ConcurrentMessageLoop.ExecuteTaken`: shows one worker's turn without interference; the interleavings are covered on the step relation only.
- Null closures posted to the pool, which it ignores, and ConcurrentTaskRunner, which forwards posts.
- That all tasks run before the pool shuts down: workers leave after one more turn, so tasks may stay queued.
- `Base32.Encode`: the guard on inputs longer than an eighth of the address space, which unbounded integers never meet.
- `CommandLines.HasOption`: string views that are not null-terminated, and platform argument lists.
- Floating-point rounding, NaN, infinities and saturated arithmetic in all of geometry; sines and cosines, so the ends of an arc are angles instead of unit vectors, and axes are quadrant numbers.
- Overflow of order numbers, queue ids, pause counts and lease terms.
- GetTightArcBounds, path dispatch, and the rest of rectangle and matrix arithmetic: easy members or transcendental functions.
- AsciiTrie, Rational, RoundSuperellipse, colours, gradients, quaternions and matrix decomposition.
- Files, mappings, native libraries, tracing, backtraces and graphics formats.
