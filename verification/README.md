# A verified model of the FFRT task runtime

FFRT runs tasks that name the data they read and write. It works out which tasks may run at the same
time, hands them to a pool of worker threads, and offers locks, condition variables and task queues to
them. This project models the parts of the runtime whose correctness is hard to see from the code and
proves what they are for. `dafny verify dfyconfig.toml` checks all of it.

The five parts are independent of each other.

**The dependence manager** (`AccessOrder`, `VersionList`, `Dependence*`, `TaskOrder`,
`SequentialEquivalence`). Class `DependenceManager.Manager` is the manager with its records, maps and
counters updated in place. Beside it runs a simple specification: for every datum the list of
unfinished accesses, in the order in which a sequential program would make them. The proofs tie the two
together: a version list is exactly what this order determines, a task's reference count is exactly the
number of data at which an earlier access conflicts with its own, submitting places an access in the
order, and finishing takes it out and does nothing else. From this follow that conflicting tasks never
overlap, that no wake of a task that waits for data is lost, that everything is freed in the end, and that
any schedule of tasks without children gives the result of running them one after another. Some task can
always go on if children keep to the data of their parents and nobody waits for a later writer; in general
somebody can go on unless some tasks wait for each other in a circle, by their accesses, in a wait for data or
in a wait for their children, and such a circle never opens (`DependenceProgress`). `DependenceLimits` says where the guarantees end, with runs of the manager that show it.

**Blocking protocols** (`Mutex`, `SharedMutex`, `TimedWait`, `TimedWaitProgress`, `TaskLifetime`). State machines for any
number of threads or tasks; one step is one atomic access, or one critical section of an inner lock that is taken
to be correct. The reader/writer lock, whose methods are critical sections as a whole, is a class.

**Workers and queues of ready work** (`WorkerPool`, `SpmcQueue`, `LinkedList`).

**User queues** (`SerialQueue`, `ConcurrentQueue`, `Starvation`). Classes whose methods are the critical
sections of the queue and the steps of its runners; `now` is a parameter wherever the code reads a clock, and never goes back.

**Two algorithms** (`GraphCheck`, `Slab`).

Atomics are sequentially consistent throughout, and nothing is torn down while in use. Memory is a map
from addresses to records in the dependence manager, so every use of a record is proved to be a use of
one that is allocated.

## Model

| member | source | states |
|---|---|---|
| `AccessOrder.BlockedIff` | src/core/version_ctx.cpp:22-39 | What the manager counts for a datum (reading an unproduced version, or producing a version that has a predecessor) holds exactly when an earlier unfinished access conflicts. |
| `AccessOrder.VersionsShape` | src/core/version_ctx.h:26-30 | In the versions of any access order only the oldest may be produced, and then it has readers. |
| `AccessOrder.ProduceIsRemoval` | src/core/version_ctx.cpp:71-90 | Producing a version turns the version list of an order into that of the order without the write, wherever the write stands. |
| `AccessOrder.ConsumeIsRemoval` | src/core/version_ctx.cpp:92-103 | Consuming turns the version list of an order into that of the order without the read, and drops the oldest version with its last reader. |
| `VersionList.InsertLinked` | src/core/version_ctx.cpp:105-114 | Creating a child of any version, or of the root, keeps the doubly linked list well formed and puts the child directly in front. |
| `VersionList.UnlinkLinked` | src/core/entity.cpp:32-53 | Unlinking any version leaves a well-formed list of the other versions in their order. |
| `DependenceOrder.RegisterWrite` | src/core/version_ctx.cpp:57-69 | For a root task, a child of a writer and a child of a reader, `AddProducer` places the write in the sequential order of the datum and keeps the whole invariant, counts included. |
| `DependenceOrder.RegisterRead` | src/core/version_ctx.cpp:41-55 | The same for `AddConsumer` and a read, in all nesting cases. |
| `DependenceOrder.RegisterRepeat` | src/core/version_ctx.cpp:22-31 | A second read of the same datum by the same task adds a reference that nobody returns exactly when the task has to wait for the datum. |
| `DependenceOrder.FinishWrite` | src/core/version_ctx.cpp:71-90 | `onProduced` of a finishing producer takes exactly its write out of the order, keeps the invariant and readies only tasks with nothing left to wait for. |
| `DependenceOrder.FinishRead` | src/core/version_ctx.cpp:92-103 | The same for `onConsumed` and a read; the version is never unproduced. |
| `DependenceFinish.MergedCore` | src/core/version_ctx.cpp:116-132 | Folding an unproduced child into its parent version keeps list, counts and holdings: readers and next writer of the parent version are still owed one notification each, now from the child's producer. |
| `DependenceFinish.SweptCore` | src/core/entity.cpp:32-53 | Recycling one version of the list of dead ones keeps the invariant and frees a version that is allocated and in no list afterwards; the root goes with the last version, and only when no access is pending. |
| `DependenceRun.RepeatsZero` | src/dm/sdependence_manager.cpp:131-159 | The references nobody returns are none exactly when no datum to wait for is named twice. |
| `DependenceRun.FinishOut` | src/dm/sdependence_manager.cpp:262-264 | One step of the loop over the outputs of a finishing task. |
| `DependenceRun.FinishIn` | src/dm/sdependence_manager.cpp:266-268 | One step of the loop over its inputs. |
| `DependenceRun.FinishDone` | src/dm/sdependence_manager.cpp:250-274 | After both loops every order lacks exactly the accesses of the finished task. |
| `DependenceRun.Sweep` | src/core/entity.cpp:32-53 | One step of the loop that recycles versions. |
| `TaskOrder.PlaceExclusive` | src/dm/sdependence_manager.cpp:288-343 | Placing an access keeps every two conflicting released tasks related by descent. |
| `TaskOrder.PlaceSorted` | src/dm/sdependence_manager.cpp:288-343 | Placing an access that its parent covers keeps all data in one common sequential order, in which a child comes directly before its parent. |
| `DependenceSafety.SubmitSound` | src/dm/sdependence_manager.cpp:131-160 | Submission keeps everything that is proved about reachable states and readies the new task exactly when no earlier access conflicts. |
| `DependenceSafety.FinishSound` | src/dm/sdependence_manager.cpp:250-286 | So does finishing a task. |
| `DependenceTheorems.ExactCount` | src/core/version_ctx.cpp:22-39 | The count of a waiting task is the number of unproduced versions it reads plus the number of versions it is next to produce, plus repeated inputs; and that is the number of data at which it is blocked. |
| `DependenceTheorems.VersionStates` | src/core/entity.cpp:32-53 | Between critical sections no version is CONSUMED, and one that is READY is the oldest of its list and has readers. |
| `DependenceTheorems.Drained` | src/core/entity.cpp:32-53 | Once all tasks are done the signature map is empty and every record has been freed. |
| `DependenceTheorems.NoRace` | src/dm/sdependence_manager.cpp:131-160 | Two tasks that may run at the same time and are not descendants of each other have no conflicting accesses. |
| `DependenceTheorems.WaitingMeansBlocked` | src/tm/scpu_task.cpp:45-52 | A task that is not released, and names no awaited input twice, has an earlier unfinished conflicting access: no release is forgotten. |
| `DependenceTheorems.FirstReleased` | src/dm/sdependence_manager.cpp:250-286 | While some task is unfinished, the first unfinished one in the sequential order has been released, if children keep to data their parents use in the same way and no awaited input is repeated. |
| `DependenceWaitSteps.EnterWait` | src/core/version_ctx.h:55-62 | Entering a wait for a datum counts one reference exactly if there is an unfinished write to wait for, and remembers those writers: the writes before the task's own write of the datum or, if it does not write the datum, all pending writes, also those behind its own read. |
| `DependenceWaitSteps.WaitIsOver` | src/tm/scpu_task.cpp:88-114 | A wait count that is back at zero means that every remembered writer is done. |
| `DependenceWaitSteps.ProducedWaits` | src/core/version_ctx.h:68-75 | Production, with and without a merge, keeps every unfinished wait entered in a version that will still be produced late enough. |
| `DependenceManager.CheckOutsHandle` | include/dm/dependence_manager.h:41-53 | False exactly if some output is a task handle. |
| `DependenceManager.OutsDedup` | include/dm/dependence_manager.h:54-61 | Every output once. |
| `DependenceManager.InsDedup` | include/dm/dependence_manager.h:63-75 | Inputs that are also outputs are dropped; the others keep their number of occurrences. |
| `DependenceManager.RemoveRepeatedDeps` | src/dm/sdependence_manager.cpp:54-66 | Inputs and outputs after removal of repetitions, with the handle as an output. |
| `DependenceManager.Manager.constructor` | src/dm/sdependence_manager.cpp:39-47 | An empty manager. |
| `DependenceManager.Manager.DecDepRef` | src/tm/scpu_task.cpp:45-52 | One reference less; at zero the task is released. |
| `DependenceManager.Manager.NotifyConsumers` | src/core/version_ctx.h:76-82 | One reference less for every reader. |
| `DependenceManager.Manager.NotifyNextProducer` | src/core/version_ctx.h:83-90 | One reference less for the next producer, which is then forgotten. |
| `DependenceManager.Manager.DecWaitDataRef` | src/tm/scpu_task.cpp:88-114 | One wait reference less; the task resumes exactly when it was suspended and none is left. |
| `DependenceManager.Manager.NotifyDataWaitTask` | src/core/version_ctx.h:68-75 | One wait reference less for each entry, and no entries left. |
| `DependenceManager.Manager.MergeConsumerInDep` | src/core/version_ctx.h:91-98 | The readers of the child hold the parent version instead. |
| `DependenceManager.Manager.MergeChildVersion` | src/core/version_ctx.cpp:116-132 | Both branches: status, redirections and, for an unproduced child, its readers and its producer. |
| `DependenceManager.Manager.AddConsumer` | src/core/version_ctx.cpp:41-55 | The new state, for every nesting type. |
| `DependenceManager.Manager.AddProducer` | src/core/version_ctx.cpp:57-69 | The new state. |
| `DependenceManager.Manager.OnProduced` | src/core/version_ctx.cpp:71-90 | The new state, and which suspended tasks resume. |
| `DependenceManager.Manager.OnConsumed` | src/core/version_ctx.cpp:92-103 | The new state. |
| `DependenceManager.Manager.VA2Ctx` | src/core/entity.cpp:21-30 | The root record of the datum, made if need be, with nothing else changed. |
| `DependenceManager.Manager.MapSignature2Deps` | src/dm/sdependence_manager.cpp:288-343 | Every datum is mapped to the parent's own version if the parent uses the datum, and to the root otherwise, with the matching nesting type. |
| `DependenceManager.Manager.OnSubmit` | src/dm/sdependence_manager.cpp:68-161 | Refused exactly for a handle among the outputs, with nothing changed. Otherwise every datum has the new access placed in its order, the task is released exactly if nothing conflicts, and references nobody returns exist exactly if an awaited input is repeated. |
| `DependenceManager.Manager.RecycleVersion` | src/core/entity.cpp:32-53 | Every dead version is freed once; the loop ends with the list of dead versions empty. |
| `DependenceManager.Manager.OnTaskDone` | src/dm/sdependence_manager.cpp:250-286 | Exactly the accesses of the task leave the orders; the tasks released by this are those with nothing left to wait for; a task that resumes from a data wait has all the writers it waited for done; and a task that waits for its children goes on exactly if this was the last of them. |
| `DependenceManager.Manager.DecChildRef` | src/tm/scpu_task.cpp:54-77 | Every task still counts exactly its unfinished children, and of the tasks that wait for children exactly those with none left go on. |
| `DependenceManager.Manager.OnWaitChildren` | src/dm/sdependence_manager.cpp:163-190 | The task is suspended exactly if one of its children is not done. |
| `DependenceManager.Manager.OnWait` | src/dm/sdependence_manager.cpp:192-248 | A wait reference for each datum with an unfinished writer in front of the task's own write, or with any unfinished writer if the task does not write the datum; so none at all exactly if there is no such writer. The records say for whom, and whether all of them come earlier in the sequential order. |
| `DependenceManager.Manager.Suspend` | src/dm/sdependence_manager.cpp:192-248 | The decision to suspend: a task that goes on at once has all its writers done. |
| `DependencePatience.PatientEnter` | src/core/version_ctx.h:55-62 | A wait for earlier writers only is entered in a version with an earlier producer. |
| `DependencePatience.ProducedPatient` | src/core/version_ctx.cpp:71-90 | Production and merging keep every wait entered in a version whose producer comes earlier in the sequential order than the waiting task. |
| `DependenceProgress.NoneLost` | src/tm/scpu_task.cpp:88-114 | A task with a wait reference is entered in an unproduced version whose producer is unfinished and another task: somebody is left to wake it. |
| `DependenceProgress.Progress` | src/dm/sdependence_manager.cpp:163-286 | While some task is unfinished, some released task is neither done nor suspended in a wait for data or for its children, all of which are done, provided children keep to the data of their parents and every wait for data is for earlier writers. |
| `DependenceProgress.RunGoesOn` | src/dm/sdependence_manager.cpp:163-286 | The same of every state a manager can reach. |
| `DependenceProgress.NobodyAwake` | src/dm/sdependence_manager.cpp:163-286 | Without those provisions: if nobody can go on, every unfinished task waits for an unfinished task, by an earlier conflicting access, in a wait for data or in a wait for its children. |
| `DependenceProgress.CircleOrProgress` | src/dm/sdependence_manager.cpp:163-286 | So somebody can go on unless some unfinished tasks wait for each other in a circle. |
| `DependenceProgress.RunGoesOnOrCircle` | src/dm/sdependence_manager.cpp:163-286 | The same of every state a manager can reach, and the tasks of the circle are at a standstill: each waits for one of them. |
| `DependenceProgress.CircleStands` | src/dm/sdependence_manager.cpp:163-286 | The tasks of a circle are a set each of which waits for one of the set. |
| `DependenceProgress.CircleIn` | src/dm/sdependence_manager.cpp:163-286 | Every such set holds a circle. |
| `DependenceProgress.NoneMoves` | src/tm/scpu_task.cpp:45-114 | None of such a set can go on: each is unreleased, has a wait reference or waits for its children. |
| `DependenceProgress.StandsForEver` | src/dm/sdependence_manager.cpp:68-286 | Through every sequence of submissions, waits and ends of tasks such a set stays as it is, and none of its tasks ever becomes able to go on or is done. |
| `DependenceProgress.Note` | src/core/version_ctx.h:55-62 | What the entries of the versions say may be added to the record of a manager, so that a circle found by way of them is one the following members speak of. |
| `DependenceProgress.FinishBesides` | src/dm/sdependence_manager.cpp:250-286 | The end of a task, if no newest child version of an output is READY, keeps such a set in a manager as it is, and the task is not one of it. |
| `DependenceProgress.SubmitBesides` | src/dm/sdependence_manager.cpp:68-161 | So does any submission. |
| `DependenceProgress.WaitBesides` | src/dm/sdependence_manager.cpp:192-248 | So does any wait for data. |
| `DependenceProgress.JoinBesides` | src/dm/sdependence_manager.cpp:163-190 | So does any wait for children. |
| `DependenceProgress.BehindOwnRead` | src/core/version_ctx.h:55-62 | A task that sleeps for a write behind its own pending read, and that writer, are such a set: the task never resumes. |
| `SequentialEquivalence.StepInTurn` | benchmarks/base/base.cpp:82-101 | A step of one task in a parallel run is a step of the same task in the sequential run. |
| `SequentialEquivalence.SequentialUnique` | benchmarks/base/base.cpp:52-80 | Running the tasks one after another has one result. |
| `SequentialEquivalence.ReadsExplained` | benchmarks/base/base.cpp:52-80 | In a sequential run every read finds the last write in front of it. |
| `SequentialEquivalence.InTurnWrites` | benchmarks/base/base.cpp:52-80 | The data after some of the tasks hold, at every datum, what these tasks wrote there last, or the initial value. |
| `SequentialEquivalence.Runtime.Submit` | src/dm/sdependence_manager.cpp:68-161 | Submission of a task with an arbitrary deterministic body keeps the run equivalent to a sequential one. The new task has done nothing yet, and no other task is further than before. |
| `SequentialEquivalence.Runtime.Run` | benchmarks/base/base.cpp:92-100 | One operation of any released task: a read gives the task the value the data have at that moment and changes none of them, a write changes one datum, and no other task moves. The run stays equivalent to a sequential one. |
| `SequentialEquivalence.Runtime.Finish` | src/dm/sdependence_manager.cpp:250-286 | So does the end of a task; it needs nothing but the body to have ended. |
| `SequentialEquivalence.Runtime.NotStuck` | src/dm/sdependence_manager.cpp:250-286 | While a task is unfinished, some task is released and unfinished, if no task repeats an input. |
| `SequentialEquivalence.Runtime.Outcome` | benchmarks/base/base.cpp:52-111 | When all tasks are done, whatever the schedule was, every body has come to its end, the data are those of running the tasks one at a time in submission order, and the manager holds nothing any more. |
| `SequentialEquivalence.Runtime.LastWriteWins` | benchmarks/base/base.cpp:82-101 | At any time of any schedule every read of every task has found the last value written to the datum by the task itself or else by an earlier task, or the initial one; every operation is the one the body asked for; and the data are what was written last. |
| `DependenceLimits.MergeKeepsOrderIff` | src/core/version_ctx.cpp:116-132 | `onProduced` keeps the versions in step with some order of the accesses exactly when the newest child version is not READY. |
| `DependenceLimits.LostReaderOverrun` | src/core/version_ctx.cpp:121-130 | What happens otherwise: with one reader and a next writer of the version, the writer is released when that reader is done, while a reader of the child version is unfinished. |
| `DependenceLimits.ReaderOverrun` | src/core/version_ctx.cpp:116-132 | A run of four submissions that gets there: a writer, a reader, a second writer, and a reader that is a child of the first writer. The second writer is released while the child may still read. |
| `DependenceLimits.NeverReady` | src/tm/scpu_task.cpp:45-52 | A task with references nobody returns is never released. |
| `DependenceLimits.RepeatedInput` | include/dm/dependence_manager.h:63-75 | A run in which a task names an awaited input twice and is not released although nothing conflicts with it any more. |
| `DependenceLimits.NestedDeadlock` | src/dm/sdependence_manager.cpp:288-343 | A run with a child that uses a datum its parent does not: two tasks wait for each other, nobody can go on, and neither will ever be released. |
| `DependenceLimits.JoinDeadlock` | src/dm/sdependence_manager.cpp:163-190 | A run in which a parent waits for a child that reads data of a third task, which waits for the parent: nobody can go on, and none of the three ever will. |
| `DependenceLimits.WaitBehindOwnRead` | src/core/version_ctx.h:55-62 | A run of two tasks without children: the first reads a datum, the second writes it, and the first waits for it. Nobody can go on, and neither ever will. |
| `Mutex.InvStep` | src/sync/mutex.cpp:205-279 | Every step of lock, try_lock, unlock, wait and wake keeps the invariant. |
| `Mutex.RunInv` | src/sync/mutex.cpp:34-78 | It holds in every state of every run, for any number of threads. |
| `Mutex.MutualExclusion` | src/sync/mutex.cpp:34-78 | At most one thread is inside. |
| `Mutex.FirstCome` | src/sync/mutex.cpp:34-78 | In every run: whoever calls `lock` or `try_lock` while nobody is inside gets in at once; while somebody is, `try_lock` changes nothing and `lock` begins to wait; and unlocking leaves nobody inside. |
| `Mutex.RememberedStep` | src/sync/mutex.cpp:218-279 | A non-empty waiter list means that the word is WAIT, or an unlocker is between its exchange and its wake, or a woken thread has yet to retry. |
| `Mutex.NobodyStranded` | src/sync/mutex.cpp:218-279 | If every thread is outside or asleep, none is asleep: no waiter is left behind. |
| `Mutex.ListInOrder` | src/sync/mutex.cpp:218-255 | In every state of every run the waiter list is in the order in which its threads went to sleep. |
| `Mutex.LongestFirst` | src/sync/mutex.cpp:257-279 | So of the threads in the list the one that has slept for longest is woken. |
| `Mutex.SomeoneMoves` | src/sync/mutex.cpp:48-78 | While nobody holds the lock and some thread wants it, a thread that is not outside can make a step. |
| `TimedWait.InvStep` | src/sync/wait_queue.cpp:113-236 | Every step of waiters, the timer thread and notifiers keeps the invariant; part of it is that every entry that is gone was deleted exactly once, where each `delete` of the code is counted. What the steps achieve is stated by the members of `TimedWaitProgress`. |
| `TimedWait.RunInv` | src/sync/delayed_worker.cpp:273-358 | It holds in every state of every run. |
| `TimedWait.NoDangling` | src/sync/wait_queue.cpp:113-200 | Every entry that a step uses is allocated: none is used after it was freed. |
| `TimedWait.WakesOnce` | src/sync/wait_queue.cpp:113-200 | A wake by the timer or by a notifier finds the task suspended on that entry: no task is woken twice. |
| `TimedWait.OneOwner` | src/sync/wait_queue.cpp:113-236 | A suspended task's entry is in the queue or claimed by exactly one of timer and notifiers. |
| `TimedWait.CodeTellsWinner` | src/sync/wait_queue.cpp:132-180 | The returned code is success exactly if a notifier took the entry from the queue, and the entry has been deleted by then, exactly once: by the waiter itself without a timeout, by the timer or a notifier with one. |
| `TimedWait.NobodyForgotten` | src/sync/wait_queue.cpp:132-180 | A suspended task that nobody is waking is still in the queue and, if it has a timeout, still has its timer. |
| `TimedWaitProgress.PopsOldest` | src/sync/wait_queue.cpp:202-236 | A notifier takes the oldest entry of the queue, and nothing else leaves the queue with it. |
| `TimedWaitProgress.ServedInOrder` | src/sync/wait_queue.cpp:202-236 | Of two waits the one that began first is notified first: while its entry is in the queue no notifier takes the other. |
| `TimedWaitProgress.NotifyServes` | src/sync/wait_queue.cpp:182-236 | From every reachable state with somebody in the queue, the lock free and a notifier idle, moves of that notifier and of a callback that is already running wake the task that has waited for longest, with success, and leave the lock free and the notifier idle. |
| `TimedWaitProgress.WaitServes` | src/sync/wait_queue.cpp:132-180 | A task that waits, with or without a limit, gets to the end of the queue and is suspended with the lock free; its timer is set exactly if it has a limit. |
| `TimedWaitProgress.LateServes` | src/sync/wait_queue.cpp:157-174 | A wait whose limit is over before it has begun returns at once, with the timeout code, and leaves nothing in the queue. |
| `TimedWaitProgress.TimeoutServes` | src/sync/wait_queue.cpp:113-155 | From every reachable state in which a suspended task has its timer set, the timer thread can wake it by itself, with the timeout code. |
| `TimedWaitProgress.ReturnServes` | src/sync/wait_queue.cpp:175-180 | A woken task returns with the code it was woken with. |
| `TimedWaitProgress.SomebodyMoves` | src/sync/wait_queue.cpp:113-236 | While a task, the timer thread or a notifier is between two resting places, one of them can make a step: no deadlock over the lock, nor between a notifier and the callback it spins for. |
| `SharedMutex.ThroughMeans` | src/sync/shared_mutex.cpp:135-160 | One pass of `NotifyAll` calls the first writer alone or all readers in front of the first writer. |
| `SharedMutex.SleepFirst` | src/sync/shared_mutex.cpp:91-117 | Going to sleep at the first gate keeps the invariant. |
| `SharedMutex.WriterExcludes` | src/sync/shared_mutex.cpp:25-89 | An active writer excludes readers and other writers. |
| `SharedMutex.WordMeans` | src/sync/shared_mutex.cpp:25-64 | What the lock word says of the threads: it is 0 exactly if nobody has entered, has the writer bit exactly if a writer has entered, and is below the reader limit exactly if no writer has entered and fewer than the limit are reading; its lower part is their number. |
| `SharedMutex.NobodyStranded` | src/sync/shared_mutex.cpp:66-160 | If every thread is outside or asleep at a gate, none is asleep: no waiter is left behind. |
| `SharedMutex.SharedMutexPrivate.NotifyOneFirst` | src/sync/shared_mutex.cpp:119-133 | Exactly the first sleeper is called. |
| `SharedMutex.SharedMutexPrivate.NotifyAllFirst` | src/sync/shared_mutex.cpp:135-160 | Exactly the prefix described above is called. |
| `SharedMutex.SharedMutexPrivate.Lock` | src/sync/shared_mutex.cpp:25-35 | In terms of the threads: the writer is inside exactly if nobody was in, sleeps at the second gate if only readers were, and at the end of the first gate if a writer had entered; no other thread changes its place. |
| `SharedMutex.SharedMutexPrivate.LockShared` | src/sync/shared_mutex.cpp:47-54 | In terms of the threads: the reader is inside exactly if no writer had entered and fewer than the limit were reading, and sleeps at the end of the first gate otherwise; no other thread changes its place. |
| `SharedMutex.SharedMutexPrivate.TryLock` | src/sync/shared_mutex.cpp:37-45 | Succeeds exactly if nobody has entered; otherwise nothing changes. |
| `SharedMutex.SharedMutexPrivate.TryLockShared` | src/sync/shared_mutex.cpp:56-64 | Succeeds exactly if no writer has entered and fewer than the limit are reading; otherwise nothing changes. |
| `SharedMutex.SharedMutexPrivate.Resume` | src/sync/shared_mutex.cpp:25-54 | A called reader is inside exactly if no writer has entered and fewer than the limit are reading, a called writer has the three outcomes of `Lock`, and one called at the second gate is inside; no other thread changes its place. |
| `SharedMutex.SharedMutexPrivate.Unlock` | src/sync/shared_mutex.cpp:66-89 | The holder is out, the word follows, and every other thread stays where it is or is called from the gate it sleeps at: after a writer exactly one pass of `NotifyAll`; after a reader exactly the writer at the second gate if that was the last reader, and without such a writer the first sleeper if the lock was full, else one pass. |
| `SpmcQueue.ProduceInv` | src/util/spmc_queue.cpp:73-88 | Each step of the producer keeps the invariant: it never writes a slot that is still to be popped. |
| `SpmcQueue.ConsumeInv` | src/util/spmc_queue.cpp:54-71 | So does each load and each compare-and-swap of a consumer, also one that fails spuriously. |
| `SpmcQueue.RunInv` | src/util/spmc_queue.cpp:54-88 | The invariant holds in every state of every run, for any number of consumers. |
| `SpmcQueue.NothingLost` | src/util/spmc_queue.cpp:54-88 | The successful pops, in the order of their compare-and-swaps, are a prefix of the pushed sequence, and the rest of it is in the ring: no loss, no duplicate, no overwrite. |
| `SpmcQueue.EmptyWhenSeen` | src/util/spmc_queue.cpp:54-71 | A consumer that goes away with nothing looked at the tail at a moment at which the ring was empty. |
| `SpmcQueue.FullWhenSeen` | src/util/spmc_queue.cpp:73-88 | A producer that is refused looked at the head at a moment at which the ring was full. |
| `SpmcQueue.AloneServed` | src/util/spmc_queue.cpp:54-88 | From every state a producer by itself gets its element in unless the ring is full, and a consumer by itself gets the oldest unless it is empty. |
| `SpmcQueue.Ring.PopHead` | src/util/spmc_queue.cpp:54-71 | The oldest element, or nothing exactly if there is none. |
| `SpmcQueue.Ring.PushTail` | src/util/spmc_queue.cpp:73-88 | Accepted exactly if there is room, at the end. |
| `SpmcQueue.Ring.PopHeadToAnotherQueue` | src/util/spmc_queue.cpp:90-115 | With the producer of this ring pushing and other consumers popping in between, the destination gets, in order and once each, exactly the elements this consumer took. Fewer than asked for only if there was a moment at which this ring was empty or the destination full; and if nobody else is at work, exactly the least of the number asked for, the length here and the room there. |
| `GraphCheck.OrderedIsAcyclic` | src/util/graph_check.cpp:76-91 | A graph with a topological order of all vertices has no cycle. |
| `GraphCheck.BackEdge` | src/util/graph_check.cpp:56-74 | An edge to a vertex on the recursion stack closes a cycle. |
| `GraphCheck.GraphCheckCyclic.AddVetexByLabel` | src/util/graph_check.cpp:18-24 | A vertex without edges, unless it is there. |
| `GraphCheck.GraphCheckCyclic.AddEdgeByLabel` | src/util/graph_check.cpp:40-46 | One more edge, if its start is a vertex. The graph stays closed under edges exactly if the end is a vertex as well, or nothing was added. |
| `GraphCheck.GraphCheckCyclic.RemoveEdgeByLabel` | src/util/graph_check.cpp:48-54 | No edges from the vertex. |
| `GraphCheck.GraphCheckCyclic.IsCyclicDfs` | src/util/graph_check.cpp:56-74 | The search ends; true only if there is a cycle, and otherwise all vertices reached are in topological order. |
| `GraphCheck.GraphCheckCyclic.IsCyclic` | src/util/graph_check.cpp:76-91 | True exactly if the graph has a directed cycle. |
| `GraphCheck.MutexGraph.AddNode` | src/sync/mutex_private.h:74-101 | The waiting task is a vertex, and there is one more edge, from the owner to it, exactly if it has to wait and the owner is a vertex. A deadlock is reported exactly if the task has to wait and the graph then has a cycle. |
| `GraphCheck.MutexGraph.RemoveNode` | src/sync/mutex_private.h:103-107 | Exactly the edges from the task are gone; the vertices stay. |
| `Starvation.Dequeuer.EarliestClass` | src/queue/queue_strategy.h:93-104 | A non-empty class with the earliest head. |
| `Starvation.Dequeuer.Dequeue` | src/queue/queue_strategy.h:85-126 | In times: the first class but the last whose head is due and that has been served fewer than five times or, if there is none, the class with the earliest head; its head is taken, its counter rises by one and the counters of more urgent classes are 0. |
| `Starvation.OdometerServed` | src/queue/queue_strategy.h:119-124 | Serving a class moves the counters of the classes before `j`, read as digits to base six, by a known amount. |
| `Starvation.OdometerRises` | src/queue/queue_strategy.h:106-124 | While class `j` has a due head and is passed over, the odometer rises with every dequeue. |
| `Starvation.StarvationBound` | src/queue/queue_strategy.h:85-126 | So class `j` is served within 6^j dequeues. |
| `Starvation.Tick` | src/queue/queue_strategy.h:106-124 | If all more urgent classes keep a due head the odometer rises by exactly one, and class `j` is served exactly when it is full. |
| `Starvation.BoundReached` | src/queue/queue_strategy.h:85-126 | Then class `j` is served at dequeue number 6^j and not before: the bound is tight. |
| `Starvation.SharelessBound` | src/queue/queue_strategy.h:85-126 | A class with a due head that has had its share is served within (n + 2) * 6^j dequeues, where n is the number of tasks of other classes due no later than its head, as long as no task with an earlier time arrives. |
| `WorkerPool.InvStep` | src/eu/sexecute_unit.cpp:120-192 | Every step of submitters and workers keeps the invariant: exact counters, work that is attended to, and one holder of the queue mutex. What happens to the tasks is stated by `TakenInOrder` and `ExecutedOnce`. |
| `WorkerPool.RunInv` | src/eu/sexecute_unit.cpp:269-296 | It holds in every state of every run. |
| `WorkerPool.CountersMatch` | include/eu/execute_unit.h:96-141 | The counters are the numbers of workers awake or being created and of workers asleep, and together stay within the hard limit. |
| `WorkerPool.PokeNothing` | src/eu/sexecute_unit.cpp:269-296 | A poke that wakes nobody and creates nobody finds an executing worker. |
| `WorkerPool.PokeMeans` | src/eu/sexecute_unit.cpp:269-296 | In numbers of real workers, a poke makes a worker exactly if nobody sleeps, fewer than the limit execute and there is room, and wakes one exactly if somebody sleeps and fewer than the limit execute; a worker that has just taken a task is exempt if there are many. |
| `WorkerPool.NoStrandedWork` | src/eu/sexecute_unit.cpp:120-192 | If nobody is awake, being woken, being created or about to poke, the run queue is empty. |
| `WorkerPool.TakenInOrder` | src/sched/stask_scheduler.h:84-92 | In every state of every run the tasks submitted so far are, in order, those taken so far followed by those in the queue. |
| `WorkerPool.ExecutedOnce` | src/eu/sexecute_unit.cpp:120-192 | In every state of every run the tasks taken so far are those executed and those in the hands of a worker, each as often as it was taken. |
| `WorkerPool.AllExecuted` | src/eu/sexecute_unit.cpp:120-192 | When every submitter is through and every worker sleeps or is gone, every submitted task has been taken in the order of submission and executed exactly once. |
| `WorkerPool.SomebodyMoves` | src/eu/sexecute_unit.cpp:120-192 | While a task is in the queue or in the hands of a worker, some worker or submitter can make a step other than submitting or timing out. |
| `WorkerPool.SubmissionServed` | src/eu/sexecute_unit.cpp:168-192 | A task submitted when everybody has settled comes to run on a worker that was asleep or, if there was none, on a new one, by steps of the submitter and that worker only. |
| `WorkerPool.TakerPokes` | src/eu/sexecute_unit.cpp:178-192 | A worker that leaves tasks behind wakes a sleeper, or makes a new worker, before it runs its own task, exactly as far as the limits allow. |
| `WorkerPool.WokenTakes` | src/eu/sexecute_unit.cpp:139-147 | A woken worker takes the oldest task and counts as executing. |
| `WorkerPool.IdleSleeps` | src/eu/sexecute_unit.cpp:120-143 | A worker that finds no task goes to sleep and counts as sleeping. |
| `LinkedList.LinkedList.InsertBefore` | include/util/linked_list.h:59-65 | The ring with the node in front of any given node. |
| `LinkedList.LinkedList.InsertAfter` | include/util/linked_list.h:51-57 | The ring with the node behind any given node. |
| `LinkedList.LinkedList.Delete` | include/util/linked_list.h:75-81 | The ring without the node, which becomes an empty list. |
| `LinkedList.LinkedList.PopFront` | include/util/linked_list.h:120-129 | Null exactly for an empty list; otherwise the first node leaves and the order of the others stays. |
| `LinkedList.LinkedList.PopBack` | include/util/linked_list.h:143-152 | The same at the other end. |
| `LinkedList.LinkedList.PushFront` | include/util/linked_list.h:219-227 | The node becomes the first of the list. |
| `LinkedList.LinkedList.PushBack` | include/util/linked_list.h:229-237 | The node becomes the last of the list. |
| `LinkedList.LinkedList.PushBackAll` | include/util/linked_list.h:287-294 | A whole chain joins the end, whatever the links at its ends were. |
| `LinkedList.FIFOQueue.EnQueueAndRetSize` | include/sched/task_runqueue.h:32-38 | One more task at the end; the size from before is returned. |
| `LinkedList.FIFOQueue.EnQueueBatch` | include/sched/task_runqueue.h:40-45 | A whole batch at the end. |
| `LinkedList.FIFOQueue.DeQueue` | include/sched/task_runqueue.h:47-66 | First in, first out; the size always matches, so the repair for a mismatch never acts. |
| `SerialQueue.SerialQueue.Push` | src/queue/serial_queue.cpp:37-68 | The task is accepted; the submitter gets the token exactly if the queue was inactive, and otherwise the task is stored under its time. |
| `SerialQueue.SerialQueue.Start` | src/queue/queue_handler.cpp:168-196 | The holder of the token becomes the runner of its task, or, if that is delayed, stores it under its time and becomes a runner with nothing to run. |
| `SerialQueue.SerialQueue.RunNext` | src/queue/queue_handler.cpp:315-379 | The runner runs the next task of its chain, which is due unless it was inserted at the head: no other task runs before its time. |
| `SerialQueue.SerialQueue.DequeBatch` | src/queue/queue_strategy.h:31-55 | The head and the due tasks of the same QoS that follow it. |
| `SerialQueue.SerialQueue.Deliver` | src/queue/queue_handler.cpp:381-404 | The runner fetches the head and what goes with it exactly if the head is due, waits if it is not, and gives up the token exactly if the queue is empty. |
| `SerialQueue.SerialQueue.Cancel` | src/queue/base_queue.cpp:118-140 | A task is cancelled exactly if it is stored under its own time; exactly that entry goes. |
| `SerialQueue.SerialQueue.CancelAll` | src/queue/base_queue.cpp:78-91 | All stored tasks are cancelled, and counted; the runner keeps its batch. |
| `SerialQueue.SerialQueue.OneToken` | src/queue/serial_queue.cpp:37-98 | There is never more than one runner, and the queue is active exactly if somebody holds the token. |
| `SerialQueue.SerialQueue.AllAccountedFor` | src/queue/queue_handler.cpp:315-404 | When the queue is inactive every accepted task has run or been cancelled, exactly once. |
| `SerialQueue.SerialQueue.RunsInOrder` | src/queue/queue_strategy.h:31-55 | Undelayed tasks that are not inserted at the head run in the order of submission, across batches and QoS splits. |
| `SerialQueue.InsertInOrder` | src/queue/serial_queue.cpp:37-68 | Inserting a task keeps the order in which tasks will run. |
| `SerialQueue.HeadFirst` | src/queue/serial_queue.cpp:37-68 | A task inserted at the head of a queue that is not empty becomes the first exactly if the first is not stored under time 0. |
| `ConcurrentQueue.NewTask` | src/core/task.cpp:213-226 | A task is due its delay after now; a delay is never lengthened and only those above a hundred years are cut, so that every due time is below the largest time there is. |
| `ConcurrentQueue.LooksEmpty` | src/queue/base_queue.cpp:189-203 | The maps look empty, by the earliest time in them, exactly if there is no task in any of them. |
| `ConcurrentQueue.Emptied` | src/queue/concurrent_queue.cpp:163-197 | Without a live runner every accepted task has run, been cancelled or been deferred. |
| `ConcurrentQueue.ConcurrentQueue.constructor` | src/queue/concurrent_queue.cpp:258-262 | An empty queue with a limit of at least one. |
| `ConcurrentQueue.ConcurrentQueue.PushAndCalConcurrency` | src/queue/concurrent_queue.cpp:222-244 | Below the limit one more runner is counted; an undelayed task goes to it and to no map, a delayed one goes to the maps; at the limit every task goes to the maps. |
| `ConcurrentQueue.ConcurrentQueue.Push` | src/queue/concurrent_queue.cpp:48-73 | The same, or deferral while somebody waits for everything; a valid priority is kept and one beyond the last is lowered. |
| `ConcurrentQueue.ConcurrentQueue.Start` | src/queue/queue_handler.cpp:406-422 | A counted submitter becomes a runner. |
| `ConcurrentQueue.ConcurrentQueue.Finish` | src/queue/queue_handler.cpp:315-379 | A task runs, once. |
| `ConcurrentQueue.ConcurrentQueue.GetWhenMapVecStats` | src/queue/base_queue.cpp:189-203 | The earliest time of all heads, and whether that is the largest time. |
| `ConcurrentQueue.ConcurrentQueue.DequeByPriority` | src/queue/queue_strategy.h:57-83 | The head of the most urgent class that has something due. |
| `ConcurrentQueue.ConcurrentQueue.Pull` | src/queue/concurrent_queue.cpp:75-113 | The runner leaves and is no longer counted, waits, or gets that head; the runners are as many as counted, never above the limit. |
| `ConcurrentQueue.ConcurrentQueue.RunnersCounted` | src/queue/concurrent_queue.cpp:75-113 | Submitters at the start and runners are together as many as counted and never above the limit; without one there is no task in the maps. |
| `ConcurrentQueue.ConcurrentQueue.NeverEarly` | src/queue/concurrent_queue.cpp:75-113 | No task is handed to a runner before its time, and every stored task is in the class of its priority. |
| `ConcurrentQueue.ConcurrentQueue.Cancel` | src/queue/concurrent_queue.cpp:135-144 | A task is cancelled exactly if it is in the maps or deferred. |
| `ConcurrentQueue.ConcurrentQueue.BeginWaitAll` | src/queue/concurrent_queue.cpp:163-174 | Only one wait for everything at a time; it is for all tasks accepted so far, none of which is deferred, and from then on submissions are deferred. |
| `ConcurrentQueue.ConcurrentQueue.EndWaitAll` | src/queue/concurrent_queue.cpp:163-197 | With no runner left every task accepted before the wait began has run or been cancelled, and so has every other that was not deferred; the deferred ones are submitted, none of them lost, and as many of them get a runner as the limit allows. |
| `TaskLifetime.InvStep` | src/tm/scpu_task.cpp:54-126 | Every step of submitting, waiting, leaving the parent, finishing and exiting keeps the invariant. |
| `TaskLifetime.RunInv` | src/tm/scpu_task.cpp:54-126 | It holds in every state of every run, for any tree of tasks and any number of threads. |
| `TaskLifetime.DroppedOnce` | src/tm/scpu_task.cpp:54-77 | A task's own reference is given up at most once, and only after its body and its children are over. |
| `TaskLifetime.BodyInOnePiece` | src/tm/scpu_task.cpp:54-126 | In every run a body begins by being scheduled and ends by returning: no wait, and nothing that happens to other tasks, skips a part of it or starts it again. |
| `TaskLifetime.BegunOnce` | src/tm/scpu_task.cpp:116-126 | No task begins twice. |
| `TaskLifetime.RunsByItself` | src/tm/scpu_task.cpp:54-77 | A task starts and stops running by steps of its own only; whoever wakes it makes it ready. |
| `TaskLifetime.AllDropped` | src/tm/scpu_task.h:75-84 | When all is over every task and every root has been given up exactly once. |
| `TaskLifetime.TouchesLive` | src/dm/sdependence_manager.cpp:275-285 | No step uses a task or root that has been given up. |
| `TaskLifetime.ParentStays` | src/dm/sdependence_manager.cpp:275-285 | Until a task has left its parent, the parent is there. |
| `TaskLifetime.CountsSuffice` | src/tm/scpu_task.cpp:54-62 | A count of children is never decremented below zero. |
| `TaskLifetime.NobodyForgotten` | src/dm/sdependence_manager.cpp:163-190 | Whoever is in `wait()` has an unfinished child that will wake it, and nobody is made ready without being suspended. |
| `TaskLifetime.WaitMeansDone` | src/dm/sdependence_manager.cpp:163-190 | `wait()` ends, at once or later, only with every child done. |
| `TaskLifetime.SomebodyMoves` | src/tm/scpu_task.cpp:54-126 | The youngest task that is not over can make a step: apart from waits for data, waiting for children never deadlocks. |
| `TaskLifetime.GrandchildOutlives` | src/tm/scpu_task.cpp:116-126 | A run in which a task waits for its children, ends and is given up while a grandchild has yet to run. |
| `Slab.SlotsApart` | include/util/slab.h:172-182 | The blocks cut from the slab are distinct and do not overlap. |
| `Slab.SimpleAllocator.constructor` | include/util/slab.h:237-239 | Nothing is live. |
| `Slab.SimpleAllocator.Init` | include/util/slab.h:172-182 | The free list is all blocks that fit, as many as counted. |
| `Slab.SimpleAllocator.Alloc` | include/util/slab.h:184-203 | A block that overlaps no live one: of the slab, and the one freed last, as long as one of its blocks is not live, and otherwise from the system. |
| `Slab.SimpleAllocator.Free` | include/util/slab.h:205-219 | The block, and only it, is no longer live; a block of the slab is the next to be handed out again. |
| `Slab.SimpleAllocator.LiveApart` | include/util/slab.h:184-203 | Live blocks never overlap. |
| `Slab.SimpleAllocator.GetUnfreed` | include/util/slab.h:110-128 | Exactly the live blocks, each once. |
| `Slab.SimpleAllocator.GetUnfreedSize` | include/util/slab.h:130-141 | Their number. |
| `Slab.SimpleAllocator.BeenFreed` | include/util/slab.h:143-160 | Right exactly for addresses that are outside the slab or at the start of a block. |

## Left out

- DependenceManager.Manager.OnTaskDone: requires that no newest child version of an output is READY, because the code then loses readers; `DependenceLimits.MergeKeepsOrderIff` gives the exact condition, `LostReaderOverrun` the consequence and `ReaderOverrun` a run.
- DependenceManager.Manager.OnSubmit: a handle is a signature not otherwise named by the task; what a handle points to, and its reference count, are not modelled.
- DependenceProgress.Progress: claimed for children that use only data of their parent, and in the same way, and for waits for earlier writers, because it is false otherwise (`DependenceLimits.NestedDeadlock`, `JoinDeadlock` and `WaitBehindOwnRead`); `CircleOrProgress` and the members about circles say what stops a run in general.
- DependenceProgress.CircleOrProgress: counts a task as able to go on that is blocked elsewhere, in a lock or a timer; and a thread that is no task and waits for its children is not one of the tasks.
- DependenceProgress.FinishBesides: requires, like `OnTaskDone`, that no newest child version of an output is READY.
- TaskLifetime.SomebodyMoves: a wait for data always ends there; `DependenceProgress` is about those that do not.
- DependenceTheorems.NoRace: says nothing of a task and its own descendants, which the runtime lets overlap.
- SequentialEquivalence.Runtime.Outcome: tasks without children and without waits for data; the bodies are arbitrary deterministic programs over integer data.
- DependenceManager.Manager.OnWait: waits of a task that blocks as a coroutine; root tasks and tasks that block their thread wait for data in a way that is not modelled.
- The union of `submitDep` and `waitDep` is two counters; the proofs show that the first is zero when the second is used.
- TimedWait: waits of coroutine tasks only, with and without timeout. In thread mode a timeout may coincide with a notification.
- TaskLifetime: a task's own reference only; references held by handles are not modelled, nor is a root that waits for data.
- Mutex: the recursive mutex and the thread-mode waiting of legacy tasks; a waiter is one thread or task that sleeps and is notified.
- SharedMutex: the inner mutex is taken as correct, so each critical section is one method.
- SpmcQueue: the counters are unbounded numbers; the code relies on 32-bit counters not overtaking each other.
- WorkerPool: the default notification strategy, without block-awareness, escape, deep sleep and worker sharing, and with thread creation always succeeding.
- Starvation: the number of classes is a parameter; the claim is for classes below the last.
- SerialQueue: before `Stop`, and with a clock that never goes back. A task inserted at the head is stored under a time other than its own, so `Cancel` does not find it.
- ConcurrentQueue: off a loop and before `Stop`; the clock never goes back and is taken to be more than a hundred years from its largest value, so that no due time wraps around; that a waiting runner is woken when an earlier task arrives is not modelled.
- Slab: the build that keeps the live set for reports; `free` of something not live, and the coroutine stack allocator.
- Context switching, epoll, timers of the operating system, QoS control, logging, tracing, watchdogs and monitors.
- Teardown and exit paths, weak memory orderings.
- UV tasks, loop-bound queues, the interactive event-handler queue, the adapter queue beyond its dequeue strategy.
- Attribute setters, argument checks of the C interface, load prediction: easy members.
