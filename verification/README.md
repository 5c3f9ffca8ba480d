# Verified models of miyako's concurrent protocols

This project models the coordination protocols of the Go toolkit `miyako` in Dafny and proves what each of
them is for. Every section of code that runs under a mutex, and every channel operation, is one atomic step.
The steps of all callers are interleaved freely; a property of a component is proved for every run, that is,
for every finite sequence of steps from the initial state.

Each component has the same three layers.

* **The object.** A class with the source's fields, whose methods run the source's sections with the source's
  branches and loops. Each method is proved equal to a function on the object's value (`View()`), or against
  the property it is for (the sort, the heap).
* **The sections.** Those functions.
* **The system.** The object together with where every caller stands (waiting, holding, inside a user
  function, about to release, ...), an `Enabled`/`Next` pair for the steps, an invariant, the lemma that every
  step keeps it, and the theorems about whole runs.

| file | component | source |
|---|---|---|
| `DependencyGraph.dfy`, `Sorter.dfy`, `Lifecycle.dfy` | dependency sort, init, start, rollback, stop | `lifecycle/lifecycle.go` |
| `KeyLock.dfy` | reference-counted key mutex | `sync/keylock/keylock.go` |
| `TaskHeap.dfy`, `TaskPool.dfy`, `Scheduler.dfy` | binary heap of tasks, pool of tasks, event loop and wake channel | `scheduler/` |
| `Pipeline.dfy` | `Process`: fan-out, fan-in, fail-fast, drain | `yumi/pipeline.go` |
| `Slots.dfy`, `Semaphore.dfy`, `Folding.dfy`, `Limiter.dfy` | slot queue, resizable semaphore, adaptive limiter | `sync/semaphore/`, `sync/limiter/` |
| `Breaker.dfy` | circuit breaker | `sync/breaker/breaker.go` |
| `Counting.dfy`, `Pool.dfy` | dynamic worker pool | `pool/pool.go` |
| `Batto.dfy` | duplicate call suppression | `batto/batto.go` |
| `Jobs.dfy`, `JobOutcomes.dfy`, `JobManager.dfy` | job manager over its in-memory store; what waiters get and timers hit; the object | `jobs/jobs.go` |

`dafny verify dfyconfig.toml` checks everything.

## What a run assumes

* Clocks are monotone and are parameters of the steps that read them. Durations are whole nanoseconds.
* keylock: only a holder calls `Unlock`; `ForceUnlock` is not among the steps.
* semaphore and limiter: each `Acquire` that returned nil is released once. A waiter already given a slot may
  still take its context's branch; such slots are counted in `lost`.
* scheduler: one `Start` loop; a task that is queued or running is not scheduled a second time and not changed.
* breaker, pipeline, scheduler: user functions return, with a value or an error; they do not panic.
* jobs: operations on a keep-alive job do not overlap (its fields are read after the lock is released).
  Timers and context watchers are `Resolve` steps of the key they were armed for, which may come at any time.
* pool: an idle timer may fire whenever its worker is at its select; every future is submitted once.
* The rate limiter's `Wait` and the mapper answer anything.

## Where the code and its documentation differ

The model follows the code. For each difference a lemma shows a run, or an input, on which the code departs from
its documentation, and another says exactly when it does not.

* `StartAll` "for all initialized services": it starts whatever was sorted, however far `InitAll` came.
  `Lifecycle.FailedInitThenStart` is a run that starts one that was never initialised.
  `Lifecycle.StartedWereInitialised` says exactly when everything started was initialised, by whichever `InitAll` of
  the run; `Lifecycle.StartMayOutrunInit` looks only at the `InitAll` that produced the order, and
  `Lifecycle.NilInitMakesStartsSafe` says what its nil error guarantees. An earlier `InitAll` can make up for a failed
  one (`Lifecycle.EarlierInitCounts`).
* `IsLocked` "currently locked": it reports an entry. Read as "somebody is in the critical section", it is right
  exactly as `KeyLock.IsLockedExactlyInside` says; read as "somebody holds the mutex", exactly as
  `KeyLock.IsLockedExactlyHeld` says. `KeyLock.EntryWithoutHolder` is a wrong yes, `KeyLock.HolderWithoutEntry` a
  wrong no under the second reading.
* The semaphore and the limiter lose a slot when a waiter is granted one and returns its context's error
  (`Slots.CancelledGrantLosesASlot`). The count is the callers' exactly when that branch was never taken
  (`Slots.SlotsAreFairAndExact`, `Limiter.CountIsExact`); a lost slot never comes back
  (`Slots.LostExactlyByLateCancel`), and once all are lost nobody is given one (`Slots.LostSlotsStarve`,
  `Slots.WithoutResizeForGood`).
* A sample of zero makes the limiter forget its minimum, because zero also means "none yet"
  (`Limiter.ZeroSampleForgetsMinimum`); `Limiter.MinimumBelowThroughout` says exactly when the minimum stays at or
  below the smoothed time over a whole series of samples.
* The breaker's cooldown: a call begun while closed can fail beside a running trial and open the breaker, and the
  trial's success then lets the next call start at once (`Breaker.CooldownCutShort`). The cooldown can be broken
  exactly when a trial is in flight (`Breaker.CooldownHoldsExactlyWithoutTrial`).
* `Close` of the pool "waits for all enqueued tasks": only the call that closes it does
  (`Pool.SecondCloseDoesNotWait`). All calls of `Close` return with every task complete exactly when none that found
  the pool closed, with the closing call still waiting, came while a task was queued or with a worker
  (`Pool.CloseWaitsExactly`).
* `ReleaseTask` "resets task fields" and `AcquireTask` hands out "a clean Task": `Priority` and `NextRun` keep their
  values. `TaskPool.PriorityComesBack` is a run that hands out a released priority; `TaskPool.AcquiredCleanExactly` says
  exactly when only clean tasks can be handed out.
* `CancelAll` lets `WaitFor` calls "receive the provided err": it closes their channels empty, which `WaitFor`
  reports as a closed manager (`JobOutcomes.CancelledWaiterGetsNothing`). No job that `CancelAll` takes ever gives its waiter
  a result (`JobOutcomes.CancelledWaiterNeverGetsResult`); what a waiter gets is decided exactly by who takes its job out of
  the store (`JobOutcomes.HolderDecides`).
* `WithTimeout` resolves "the job": a timer knows its job only by the key, and one that fires late can take the next
  job of that key (`JobOutcomes.TimerHitsLaterJob`). It takes its own exactly when that has not left the store
  (`JobOutcomes.TimerHitsItsJobExactly`).
* batto, one function per key at a time: a call that lost its only waiter runs beside its successor
  (`Batto.LostCallRunsBesideNew`) and deletes it from the map when it ends (`Batto.LostCallEvictsNew`), after which two
  calls that are both waited for can run (`Batto.EvictionOutlivesLostCall`). It holds exactly as long as no `Do` finds
  its key missing from the map while a function of it runs (`Batto.OneWorkerExactly`).

## Model

| member | source | states |
|---|---|---|
| Sorter.SortDependencies | lifecycle/lifecycle.go:135-182 | for every registry and every order of the map iteration: the sort succeeds exactly when every dependency is registered and there is no cycle; the result then holds each registered service once, dependencies strictly first; an error comes with a real cycle through the named service, or with a real unregistered dependency |
| Sorter.DepthFirst.Visit | lifecycle/lifecycle.go:143-171 | a visit that succeeds leaves the stack as it was, marks its service, and only extends a partial order that is topological and closed; one that fails justifies its error; it ends because the registered names neither visited nor on the stack shrink |
| Sorter.CycleOnStack | lifecycle/lifecycle.go:144-146 | meeting a name that is on the stack exhibits a cycle of the graph through it |
| Sorter.EmitKeepsOrder | lifecycle/lifecycle.go:164-167 | emitting a service all of whose dependencies were emitted keeps the order topological and without repetition |
| DependencyGraph.PathDescends | lifecycle/lifecycle.go:135-182 | along any dependency path, positions in a topological order strictly fall |
| DependencyGraph.SortedImpliesSound | lifecycle/lifecycle.go:135-182 | only an acyclic graph with every dependency registered has a topological order |
| Lifecycle.RunningIsAlwaysClosed | lifecycle/lifecycle.go:59-133 | over any sequence of Register, InitAll, StartAll and StopAll, after every single start and stop the running services include all their dependencies; nothing runs while the orchestrator is not started |
| Lifecycle.StartsKeepClosed | lifecycle/lifecycle.go:99-106 | starting a topological order from the front keeps the running set dependency-closed after each start |
| Lifecycle.StopsKeepClosed | lifecycle/lifecycle.go:124-133 | stopping it from the back keeps it closed after each stop and leaves nothing running |
| Lifecycle.RollbackKeepsClosed | lifecycle/lifecycle.go:100-103 | a failed start followed by the rollback keeps it closed and leaves nothing running |
| Lifecycle.RollbackStopsEachOnce | lifecycle/lifecycle.go:99-106 | a start that fails at position k stops exactly the k services it had started, once each |
| Lifecycle.StartMayOutrunInit | lifecycle/lifecycle.go:78-106 | in any run, for a start and the InitAll that produced its order: with j services initialised by it and k started now, every one started was initialised by it if and only if k <= j |
| Lifecycle.StartedWereInitialised | lifecycle/lifecycle.go:69-106 | in any run, counting every initialisation before it: all services a StartAll starts were initialised if and only if those beyond the reach of the InitAll that produced the order had been initialised earlier |
| Lifecycle.EarlierInitCounts | lifecycle/lifecycle.go:69-106 | a run in which the last InitAll failed and what is started was initialised by the one before |
| Lifecycle.StartsWithinInits | lifecycle/lifecycle.go:80-106 | the same for any order without repeated names |
| Lifecycle.NilInitMakesStartsSafe | lifecycle/lifecycle.go:80-86 | no later start by an order can start an uninitialised service if and only if InitAll initialised all of it, that is, returned no error |
| Lifecycle.FailedInitThenStart | lifecycle/lifecycle.go:80-106 | a run in which a service whose Init failed is started by StartAll |
| Lifecycle.InitsFollowDependencies | lifecycle/lifecycle.go:78-86 | each service is initialised after the services it depends on |
| Lifecycle.StepKeepsInv | lifecycle/lifecycle.go:59-133 | every operation keeps the orchestrator's invariant |
| Lifecycle.Orchestrator.Register | lifecycle/lifecycle.go:60-65 | files the service under its name and nothing else |
| Lifecycle.Orchestrator.InitAll | lifecycle/lifecycle.go:69-87 | takes one init step; no error exactly when the graph sorts and every service initialises, and, if it sorts, exactly when none was left out |
| Lifecycle.Orchestrator.InitOrdered | lifecycle/lifecycle.go:80-86 | initialises in order up to the first failure, and fails exactly when some service does |
| Lifecycle.Orchestrator.StartAll | lifecycle/lifecycle.go:91-111 | takes one start step; started exactly when no error; the error is of the first service that cannot start |
| Lifecycle.Orchestrator.StartOrdered | lifecycle/lifecycle.go:99-106 | starts in order; on the first failure stops what was started, in reverse |
| Lifecycle.Orchestrator.StopAll | lifecycle/lifecycle.go:114-122 | takes one stop step: everything running is stopped in reverse order |
| Lifecycle.Orchestrator.StopRunning | lifecycle/lifecycle.go:124-133 | stops each running service once, last first, and forgets them |
| KeyLock.MutualExclusion | sync/keylock/keylock.go:79-149 | in every interleaving of Lock, TryLock and Unlock at most one session is inside a key's critical section, even while a deleted entry is still being released |
| KeyLock.ExactCounting | sync/keylock/keylock.go:85-148 | an entry's count is the number of sessions waiting for, holding, trying or backing out of it and is positive; a key has an entry exactly while a session uses it; with no session the map is empty; no unlock panics |
| KeyLock.WaiterIsNeverStuck | sync/keylock/keylock.go:94-115 | the inner mutex a waiter needs is free, or owned by a session whose next step is enabled |
| KeyLock.StepKeepsInv | sync/keylock/keylock.go:79-149 | every step keeps counts exact and each locked inner mutex owned by exactly one session |
| KeyLock.IsLockedExactlyInside | sync/keylock/keylock.go:46-54 | in every run IsLocked tells whether somebody is in the key's critical section if and only if a key that somebody waits for, tries or backs out of also has somebody inside |
| KeyLock.IsLockedExactlyHeld | sync/keylock/keylock.go:46-54 | in every run IsLocked tells whether an inner mutex of the key is held if and only if a key asked for is held, and a key being released is entered or asked for by another session |
| KeyLock.EntryWithoutHolder | sync/keylock/keylock.go:46-54 | a run after which IsLocked says yes and nobody holds the key |
| KeyLock.HolderWithoutEntry | sync/keylock/keylock.go:108-115 | a run after which IsLocked says no while a session still holds the inner mutex it releases |
| KeyLock.TwoMutexesForOneKey | sync/keylock/keylock.go:108-115 | a run after which one key has two locked inner mutexes, one deleted and one in the map |
| KeyLock.KeyMutex.IsLocked | sync/keylock/keylock.go:47-54 | yes exactly when the key has an entry; when that means "locked" is stated by the two theorems above |
| KeyLock.KeyMutex.EnterSection | sync/keylock/keylock.go:80-92 | finds or creates the entry and counts the caller |
| KeyLock.KeyMutex.UnlockSection | sync/keylock/keylock.go:100-113 | uncounts the caller and deletes the entry at zero; panics exactly when the key has no entry |
| KeyLock.KeyMutex.BackOutSection | sync/keylock/keylock.go:139-146 | undoes the counting of a failed try |
| KeyLock.KeyMutex.TryInner | sync/keylock/keylock.go:135-137 | takes the inner mutex exactly when it is free |
| KeyLock.KeyMutex.UnlockInner | sync/keylock/keylock.go:115-115 | frees the inner mutex |
| TaskHeap.RootIsMinimum | scheduler/task.go:88-94 | the root of a heap-ordered slice is due no later than any task, and among those due at the same time none has a higher priority |
| TaskHeap.SiftUpStep | scheduler/task.go:88-107 | one upward exchange leaves the order intact but for the position moved to |
| TaskHeap.SiftDownStep | scheduler/task.go:88-118 | one downward exchange with the lesser child leaves the order intact but for the position moved to |
| TaskHeap.Heap.Swap | scheduler/task.go:96-100 | exchanges two tasks, keeps the tasks and keeps every back-pointer right |
| TaskHeap.Heap.Append | scheduler/task.go:102-107 | appends the task with its position |
| TaskHeap.Heap.CutLast | scheduler/task.go:109-118 | cuts off the last task and marks it as not queued |
| TaskHeap.Heap.Up | scheduler/task.go:88-107 | restores the heap order after an insertion, as a permutation with right back-pointers |
| TaskHeap.Heap.Down | scheduler/task.go:88-118 | restores the heap order of the first n positions, leaves the others alone, as a permutation with right back-pointers |
| TaskHeap.Heap.Push | scheduler/scheduler.go:54-57 | keeps the heap valid and adds exactly the task |
| TaskHeap.Heap.Pop | scheduler/scheduler.go:130-131 | keeps the heap valid and removes exactly the root, which of all tasks queued before is due first, and among those due with it has the highest priority |
| Scheduler.NoRunLosesAWakeup | scheduler/scheduler.go:54-128 | in every run a loop parked beside a task it should look at has a token waiting or a pusher about to leave one; pushes are dispatched or queued, each once |
| Scheduler.DispatchIsFirstDue | scheduler/scheduler.go:80-134 | in every run a step dispatches at most one task and none after the cancellation; it is due, first due, and of the highest priority among those |
| Scheduler.PeriodicRunsApart | scheduler/scheduler.go:137-147 | in every run a periodic task is not dispatched again before its interval has passed since its last run ended |
| Scheduler.StaysQueued | scheduler/scheduler.go:54-134 | in every run a queued task keeps its time and priority until it is dispatched |
| Scheduler.StepKeepsWakeups | scheduler/scheduler.go:54-147 | every step keeps the wake-up property |
| Scheduler.DueMeansStep | scheduler/scheduler.go:74-135 | while a task is due and the context lives, the scheduler has a step to take by itself |
| Scheduler.DueTasksAreDispatched | scheduler/scheduler.go:74-135 | without new pushes and ticks the scheduler's own steps are bounded, and where they end no queued task is due |
| Scheduler.TaskScheduler.ScheduleSection | scheduler/scheduler.go:55-57 | adds the task with its rank to the queue |
| Scheduler.TaskScheduler.TriggerWake | scheduler/scheduler.go:62-67 | leaves a token in the wake channel, whether or not one was there |
| Scheduler.TaskScheduler.LoopSection | scheduler/scheduler.go:81-131 | stops exactly when cancelled, parks on an empty queue or until the earliest time in it, else removes the task it dispatches: due, first due, and of the highest priority among those |
| Scheduler.TaskScheduler.RequeueSection | scheduler/scheduler.go:142-146 | puts a periodic task back, due one interval from now |
| TaskPool.AcquiredCleanExactly | scheduler/scheduler.go:36-50 | in every run AcquireTask can hand out only clean tasks if and only if every task still in the pool was released with zero priority and run time |
| TaskPool.PriorityComesBack | scheduler/scheduler.go:36-50 | a run in which a task released with high priority is handed out with it |
| TaskPool.ReleaseOf | scheduler/scheduler.go:42-50 | what a pooled task holds is what the last release of it left |
| Scheduler.TaskScheduler.AcquireTask | scheduler/scheduler.go:38-40 | hands out a pooled task as it was left, or a new one, which is clean; clean whenever all pooled tasks are |
| Scheduler.TaskScheduler.ReleaseTask | scheduler/scheduler.go:44-50 | clears identity, function, interval and index, keeps priority and run time, and puts the task into the pool; it is clean there if and only if both were zero |
| Pipeline.NilErrorMeansSequentialMap | yumi/pipeline.go:42-177 | for any worker count and schedule, a nil error means the outputs are those of the sequential map, with one mapper call per input |
| Pipeline.NilErrorExactlyWhenNothingFails | yumi/pipeline.go:142-176 | the error is nil if and only if the context was not cancelled and neither limiter nor mapper failed in any call: no error is dropped or made up, with or without fail-fast |
| Pipeline.ErrorsAreAllJoined | yumi/pipeline.go:142-176 | without fail-fast and cancellation the call returns the outputs or the joined errors, each error exactly as often as the limiter and the mapper produced it |
| Pipeline.EveryInputIsTried | yumi/pipeline.go:94-127 | without fail-fast and cancellation no worker leaves while a task is queued, and at the return every input was mapped once or refused by the limiter |
| Pipeline.FailFastReturnsFirst | yumi/pipeline.go:142-170 | with fail-fast a call that is not cancelled returns the first error taken from the results if one was taken, and the outputs otherwise |
| Pipeline.FirstTakenErrorIsKept | yumi/pipeline.go:142-150 | with fail-fast nothing is ever collected and the first error taken is kept |
| Pipeline.CancelledExactly | yumi/pipeline.go:164-166 | the call returns its context's error if and only if the context was cancelled before it returned |
| Pipeline.CollectFiles | yumi/pipeline.go:142-155 | one message: a value goes under its input and nothing else changes; an error goes to the first error or to the end of the collected ones by the configuration |
| Pipeline.DoneWorkerLeaves | yumi/pipeline.go:105-109 | a worker that finds the run cancelled or failed maps nothing more, sends its task back with the error and leaves |
| Pipeline.FreeWorkerGoesOn | yumi/pipeline.go:111-119 | otherwise it calls the mapper, after the limiter when there is one |
| Pipeline.CallsPassTheLimiter | yumi/pipeline.go:111-119 | with a limiter there are in every run as many mapper calls as tasks it let through |
| Pipeline.WorkersAreBounded | yumi/pipeline.go:92-94 | in every run there are as many workers as configured, or as inputs if those are fewer |
| Pipeline.TaskObjectsAreConserved | yumi/pipeline.go:54-162 | at every moment each task object is in exactly one of queue, hand, results and pool; no input is mapped twice; no worker's send can block; when the call has returned, on any path, each object was recycled exactly once |
| Pipeline.ProcessAlwaysReturns | yumi/pipeline.go:92-177 | no schedule is longer than seven steps an input plus two, and one that can go no further has returned |
| Pipeline.StepConserves | yumi/pipeline.go:92-162 | every step keeps each task object in one place and their total number |
| Pipeline.StepTroubles | yumi/pipeline.go:96-162 | a failure is on record or on its way exactly from the first failing step on |
| Pipeline.StartSatisfiesInv | yumi/pipeline.go:76-92 | the filled channel and fresh workers satisfy the invariant |
| Pipeline.ProcessCall.constructor | yumi/pipeline.go:76-92 | fills the channel with one task per input and starts min(workers, inputs) workers |
| Pipeline.ProcessCall.WorkerCheck | yumi/pipeline.go:105-120 | a received task is sent back with the context's error and the worker leaves, or goes to the limiter, or to the mapper |
| Pipeline.ProcessCall.WorkerSend | yumi/pipeline.go:106-123 | sends the task on and leaves or selects again |
| Pipeline.ProcessCall.CollectNext | yumi/pipeline.go:142-162 | writes the output in its place or records the error, then recycles the task |
| Pipeline.ProcessCall.FinishCall | yumi/pipeline.go:164-176 | context error before first error before joined errors before outputs; the queue is drained |
| Pipeline.ProcessCall.DrainTasks | yumi/pipeline.go:59-70 | recycles every task left in the queue |
| Slots.SlotsAreFairAndExact | sync/semaphore/semaphore.go:28-89 | over every run slots are given in order of arrival and never past a waiter, nobody waits beside a free slot, and the count is the slots callers have or are about to have if and only if no caller took its context's branch after it was granted a slot |
| Slots.LostExactlyByLateCancel | sync/semaphore/semaphore.go:44-60 | over every run a slot is lost if and only if that branch was taken, and lost slots never come back |
| Slots.LostSlotsStarve | sync/semaphore/semaphore.go:33-89 | once as many slots are lost as the limit has, nobody is given one as long as the limit is not raised above that |
| Slots.WithoutResizeForGood | sync/semaphore/semaphore.go:33-89 | without a resize that is for good |
| Slots.GrantsStayWithinLimit | sync/semaphore/semaphore.go:81-89 | a step that gives a slot ends within the limit |
| Slots.ShrinkOnlyDrains | sync/semaphore/semaphore.go:72-89 | above the limit the count only falls and nobody is given a slot |
| Slots.CancelledGrantLosesASlot | sync/semaphore/semaphore.go:44-56 | a run in which a one-slot semaphore blocks its next caller though nobody holds anything |
| Slots.StepKeepsInv | sync/semaphore/semaphore.go:28-89 | every arrival, notice, cancellation, release and resize keeps order, count and the absence of free slots beside waiters |
| Slots.RebalanceKeepsInv | sync/semaphore/semaphore.go:81-89 | waking the front of the queue, whatever limit is set, keeps them too |
| Semaphore.Semaphore.AcquireSection | sync/semaphore/semaphore.go:33-42 | takes a slot exactly when one is free, else queues at the back |
| Semaphore.Semaphore.CancelSection | sync/semaphore/semaphore.go:46-54 | cuts the caller's channel out of the queue |
| Semaphore.Semaphore.Release | sync/semaphore/semaphore.go:64-70 | frees one slot and wakes whoever fits |
| Semaphore.Semaphore.Resize | sync/semaphore/semaphore.go:73-79 | sets the limit and wakes whoever fits |
| Semaphore.Semaphore.NotifyWaiters | sync/semaphore/semaphore.go:81-89 | wakes from the front exactly as many as fit |
| Semaphore.CutOut | sync/semaphore/semaphore.go:47-52 | removes the channel's first occurrence and keeps the order of the rest |
| Limiter.ActiveNeverExceedsLimit | sync/limiter/limiter.go:42-114 | from an initial limit in range: the limit stays within 1 and 1000, the active count within its floor, and a caller waits only at the floor; the count is held, handed and lost slots |
| Limiter.CountIsExact | sync/limiter/limiter.go:54-70 | over every run the count is the callers' own if and only if no caller took its context's branch after it was granted a slot |
| Limiter.ReleaseStaysWithinLimit | sync/limiter/limiter.go:98-113 | the limit falls by at most the one slot the same release frees |
| Limiter.EstimatesWithinSamples | sync/limiter/limiter.go:86-94 | smoothed and minimum time stay between the smallest and largest positive sample |
| Limiter.MinimumUntilReset | sync/limiter/limiter.go:81-94 | until the first reset the minimum is below every sample and the smoothed time |
| Limiter.MinimumBelowSmoothed | sync/limiter/limiter.go:81-94 | one sample keeps the minimum at or below the smoothed time if and only if it does not start the minimum afresh above it |
| Limiter.MinimumBelowThroughout | sync/limiter/limiter.go:81-94 | over every series of samples the minimum stays at or below the smoothed time throughout if and only if no sample above the smoothed time arrives while there is no minimum or the window is over |
| Limiter.MinimumIsLeastOfWindow | sync/limiter/limiter.go:81-88 | over every series of positive samples the minimum is exactly the least sample since the window was last started again, which happens when a sample comes more than 30 seconds after the previous start |
| Limiter.SampleByNumbers | sync/limiter/limiter.go:81-102 | what one positive sample does to window, minimum, smoothed time and limit, in numbers |
| Limiter.FirstSample | sync/limiter/limiter.go:86-102 | what the first sample does, a zero one included |
| Limiter.JudgeWithoutSmoothed | sync/limiter/limiter.go:96-102 | the comparisons when the smoothed time is zero, by the rules of IEEE division |
| Limiter.TruncationIsTowardZero | sync/limiter/limiter.go:93-104 | conversions to whole numbers go toward zero |
| Limiter.ZeroSampleForgetsMinimum | sync/limiter/limiter.go:86-88 | samples 10, 0, 50 leave a minimum of 50 above a smoothed time of 13 |
| Limiter.SmoothingApproaches | sync/limiter/limiter.go:93-93 | smoothing stands still exactly from nine nanoseconds below the sample up to it; elsewhere it comes closer without passing |
| Limiter.NudgeApproaches | sync/limiter/limiter.go:96-102 | one adjustment moves the estimated queue by less than one and cannot jump over the band |
| Limiter.Converges | sync/limiter/limiter.go:86-102 | 999 releases at a constant time bring the limit into the band, or to the maximum below it, from any limit in range |
| Limiter.ConvergesFromAnywhere | sync/limiter/limiter.go:86-102 | from any measured state a constant time first steadies the smoothed time, within their distance in nanoseconds, and 999 more releases settle the limit |
| Limiter.StaysSettled | sync/limiter/limiter.go:96-102 | once settled, further releases at that time change nothing |
| Limiter.AdaptiveLimiter.AcquireSection | sync/limiter/limiter.go:43-52 | takes a slot exactly when the truncated limit leaves one, else queues |
| Limiter.AdaptiveLimiter.CancelSection | sync/limiter/limiter.go:56-64 | cuts the caller's channel out of the queue |
| Limiter.AdaptiveLimiter.Release | sync/limiter/limiter.go:75-114 | updates the estimates and the limit from the sample, frees one slot and wakes whoever fits the new limit |
| Limiter.AdaptiveLimiter.Tune | sync/limiter/limiter.go:81-102 | the estimates and the limit after one sample |
| Breaker.BreakerIsSound | sync/breaker/breaker.go:101-205 | in every interleaving: at most one half-open trial, flagged exactly while in flight; the records are exactly the completions not before the cutoff since the last entry to Closed or Open; a closed breaker has fewer than the required number, or a share of failed ones below the threshold |
| Breaker.OpensExactlyAtThreshold | sync/breaker/breaker.go:149-165 | an ordinary completion opens the breaker, stamped with its time, if and only if enough completions lie in the last window, itself included, and the share of failed ones reaches the threshold; otherwise state and stamp stay |
| Breaker.NoFailureNeverOpens | sync/breaker/breaker.go:101-168 | in every run in which no call has failed the breaker is closed |
| Breaker.TrialDecides | sync/breaker/breaker.go:137-147 | a trial's success closes the breaker; its failure opens it, stamped at that time, or leaves it open as it was |
| Breaker.BeginDecides | sync/breaker/breaker.go:102-130 | which calls are let through and which as a trial, by state, cooldown and flag |
| Breaker.DefaultsAreUsable | sync/breaker/breaker.go:61-77 | usable settings are kept, unusable ones become a half, five seconds, five requests and ten seconds |
| Breaker.FailuresCount | sync/breaker/breaker.go:154-159 | the recursive count is the number of positions whose record failed |
| Breaker.PruneLeavesRecent | sync/breaker/breaker.go:194-205 | pruning time-ordered records leaves exactly those not before the cutoff |
| Breaker.PruneIsFilter | sync/breaker/breaker.go:194-205 | dropping the old prefix of time-ordered records is filtering by the cutoff |
| Breaker.RecordThenPrune | sync/breaker/breaker.go:149-151 | append and prune on the pruned records equals filtering the whole history |
| Breaker.CooldownHoldsExactlyWithoutTrial | sync/breaker/breaker.go:99-174 | in every run, from an open breaker within its cooldown some continuation starts a user function within that cooldown if and only if a trial is in flight |
| Breaker.CooldownIsRespected | sync/breaker/breaker.go:106-132 | from any point of a run where the breaker is open with no trial in flight, no continuation starts a user function before more than the cooldown has passed since the opening |
| Breaker.TrialSuccessEndsCooldown | sync/breaker/breaker.go:137-146 | wherever the breaker is open beside a trial, the trial's success lets the next call start at the same instant, early if the cooldown is running |
| Breaker.LateFailureBesideTrial | sync/breaker/breaker.go:128-165 | a run that ends just opened beside a running trial |
| Breaker.CooldownCutShort | sync/breaker/breaker.go:101-168 | a whole run in which a user function starts within the cooldown of an opening |
| Breaker.StepKeepsInv | sync/breaker/breaker.go:101-215 | every step keeps the breaker's invariant |
| Breaker.CircuitBreaker.constructor | sync/breaker/breaker.go:61-97 | a closed breaker with every unusable setting replaced by its default |
| Breaker.CircuitBreaker.BeginSection | sync/breaker/breaker.go:102-130 | the verdict and state change before the user function |
| Breaker.CircuitBreaker.FinishSection | sync/breaker/breaker.go:134-167 | the state change after it |
| Breaker.CircuitBreaker.QueryState | sync/breaker/breaker.go:208-215 | moves an expired Open to Half-Open and reports the state |
| Breaker.CircuitBreaker.Transition | sync/breaker/breaker.go:176-192 | changes state, stamps it, and forgets the records except on entry to Half-Open |
| Breaker.CircuitBreaker.PruneRecords | sync/breaker/breaker.go:194-205 | drops the leading records before the cutoff |
| Breaker.CountFailures | sync/breaker/breaker.go:154-159 | the number of positions whose record failed |
| Pool.PoolStaysSound | pool/pool.go:94-216 | in every run: the worker counts equal the live and busy workers; an open pool keeps between its two bounds; a queued task, even after Close, has a live worker that is not leaving; a checked submission can always send |
| Pool.EveryFutureCompletes | pool/pool.go:153-216 | no future completes twice, and when the closing call returns the queue is empty and every accepted future completed exactly once |
| Pool.TakenInOrder | pool/pool.go:118-188 | in every run the tasks submitted are those taken by workers and then those queued, in the same order |
| Pool.GrowsExactly | pool/pool.go:188-192 | in every run a submission adds one worker if and only if the pool is below its maximum and all workers are busy or a task is queued; no other step adds one |
| Pool.LeavesExactly | pool/pool.go:118-147 | in every run an idle worker leaves if and only if more than the minimum are counted; other workers leave only after they saw the channel closed and empty |
| Pool.DefaultsAreUsable | pool/pool.go:53-69 | usable settings are kept; otherwise one worker, a maximum not below the minimum, a queue of a hundred |
| Pool.ClosingIsBounded | pool/pool.go:101-216 | from any moment after the close the pool's own steps are bounded by its remaining work, plus one for every idle timer that fires or further Close |
| Pool.CloseComesToReturn | pool/pool.go:199-216 | a closed pool that can take no step of its own has returned from the closing call |
| Pool.CloseWaitsExactly | pool/pool.go:199-216 | in every run all calls of Close returned with every accepted future complete if and only if each one that found the pool closed, with the closing call still waiting, found it idle |
| Pool.CloseReturnsComplete | pool/pool.go:199-216 | the same for one returning call of Close |
| Pool.CompleteExactlyWhenIdle | pool/pool.go:153-188 | at every moment of every run all accepted futures are complete if and only if no task is queued or with a worker |
| Pool.SecondCloseDoesNotWait | pool/pool.go:200-206 | a run in which a second Close has returned while an accepted future is queued |
| Pool.StepKeepsInv | pool/pool.go:101-216 | every step keeps counts, bounds and the one place of every future |
| Pool.StepMovesFutures | pool/pool.go:119-188 | every step keeps each future in exactly as many places (queued, carried, completed) as it was accepted |
| Pool.WorkerPool.constructor | pool/pool.go:53-99 | starts the minimum number of workers over an empty queue |
| Pool.WorkerPool.CheckSubmission | pool/pool.go:168-179 | refuses a closed pool, then a full queue |
| Pool.WorkerPool.SendTask | pool/pool.go:181-188 | queues the task |
| Pool.WorkerPool.SpawnIfNeeded | pool/pool.go:190-194 | adds a worker below the maximum when all are busy or a task is queued |
| Pool.WorkerPool.WorkerReceive | pool/pool.go:118-126 | takes the first task, or sees the closed channel only when it is empty |
| Pool.WorkerPool.WorkerRunTask | pool/pool.go:153-163 | completes the future whether the work returns or panics |
| Pool.WorkerPool.WorkerIdle | pool/pool.go:138-147 | an idle worker leaves exactly when more than the minimum are counted |
| Pool.WorkerPool.WorkerClose | pool/pool.go:120-126 | a worker that saw the closed channel is uncounted and gone |
| Pool.WorkerPool.CloseSection | pool/pool.go:201-211 | closes once |
| Batto.JoinersFindLiveCalls | batto/batto.go:67-146 | every call in the map is unfinished, not cancelled and has a waiter; the branch for a finished call in the map is never taken |
| Batto.RepliesAreDeliveredOnce | batto/batto.go:109-194 | a waiting caller's channel holds exactly one reply once its call has ended and none before, so a cancelled caller that sees the end never blocks; every caller that got a reply got the value the function returned, or, after a panic, the panic if it is the initiator and the error if not |
| Batto.InitiatorStarted | batto/batto.go:72-88 | in every run the initiator of a call is the caller whose Do started it |
| Batto.OneWorkerExactly | batto/batto.go:67-194 | over every run: at most one function of a key ran at a time up to some moment if and only if until then no Do found the key missing from the map while a function of it ran |
| Batto.SecondWorkerExactly | batto/batto.go:72-86 | one step makes a second function of a key run if and only if it is such a Do |
| Batto.AtMostOneWorker | batto/batto.go:67-194 | in particular, a key none of whose calls ever lost all its waiters has at most one function running |
| Batto.LostCallRunsBesideNew | batto/batto.go:136-139 | a run from an empty group after which a call without waiters and its successor both run |
| Batto.LostCallEvictsNew | batto/batto.go:186-186 | that run continued: the lost call has ended and its successor, running and waited for, is gone from the map |
| Batto.EvictionOutlivesLostCall | batto/batto.go:72-86 | that run continued: two calls of the key run, both waited for, though no lost call is left |
| Batto.StepKeepsInv | batto/batto.go:62-194 | every step keeps the group's invariant |
| Batto.CallGroup.DoSection | batto/batto.go:67-104 | starts a call, joins the one in the map, or finds it done |
| Batto.CallGroup.SeeDoneSection | batto/batto.go:118-142 | a cancelled caller leaves an unfinished call, cancelling and deleting it when it was the last |
| Batto.CallGroup.EndSection | batto/batto.go:154-193 | marks the call done, deletes the key, and sends every waiter, and nobody else, the value, or after a panic the panic to the initiator and the error to the others |
| Batto.CallGroup.SendReplies | batto/batto.go:164-190 | the same of the loop over the waiters |
| Jobs.CallbacksRunExactlyOnce | jobs/jobs.go:250-624 | in every interleaving each accepted job leaves the store at most once; a job that is not keep-alive has its callback dispatched exactly once unless it was removed or is still on its way |
| Jobs.EntriesAreConserved | jobs/jobs.go:278-470 | each entry object is in exactly one of pool, store and one caller's hands |
| Jobs.ManagerStaysSound | jobs/jobs.go:250-624 | the store respects a positive capacity and is empty once closed; no wait channel is closed twice or sent on after its close; whoever holds a detached entry can finish it |
| Jobs.NoWaiterIsForgotten | jobs/jobs.go:343-624 | an open wait channel has its job in the store or in the hands of a caller about to close it; with neither, no waiter is blocked |
| JobOutcomes.HolderDecides | jobs/jobs.go:343-624 | in every run: once the entry of an open wait channel is in somebody's hands, the channel stays open until it has that holder's outcome for good, the result of a resolution, nothing after a removal or a sweep |
| JobOutcomes.CancelledWaiterNeverGetsResult | jobs/jobs.go:516-624 | in every run a job that CancelAll or Close takes out of the store never gives its waiter a result |
| Jobs.OnlyAResolutionReplies | jobs/jobs.go:377-382 | in one step an open wait channel comes to hold a reply exactly by the end of a resolution, and then that resolution's |
| JobOutcomes.TimerHitsItsJobExactly | jobs/jobs.go:294-305 | in every run a timer that fires while its key is stored takes the job it was armed for if and only if that job has not left the store |
| JobOutcomes.TimerHitsLaterJob | jobs/jobs.go:294-305 | a run in which a timer takes the next job of its key |
| JobOutcomes.CancelledWaiterGetsNothing | jobs/jobs.go:516-539 | a run after which a cancelled job's waiter has a closed channel without a result though the manager is open |
| Jobs.StepKeepsInv | jobs/jobs.go:250-624 | every step keeps the manager's invariant |
| JobObject.SweepIsTheSystems | jobs/jobs.go:580-624 | finishing one entry of the object is the system's sweep step: the same manager and channels, and the same dispatches |
| JobObject.SweepAllPointwise | jobs/jobs.go:580-624 | the whole sweep dispatches each entry's callback once, closes its wait channel empty and recycles it |
| Jobs.ClosedForGood | jobs/jobs.go:541-568 | in every run a manager is closed exactly from a Close on, and then nothing is added, resolved or removed |
| Jobs.KeptJobStays | jobs/jobs.go:343-420 | resolving a keep-alive job dispatches its callback, unblocks its waiter with the reply, and leaves the job stored |
| JobObject.SweepOneMore | jobs/jobs.go:580-624 | finishing one pending entry and then the rest is finishing them all |
| JobObject.JobManager.AddSection | jobs/jobs.go:250-323 | refuses a closed manager, then a full one, then a duplicate; else stores a filled entry from the pool or a new one |
| JobObject.JobManager.DetachSection | jobs/jobs.go:344-360 | finds the entry exactly when the manager is open and has it, and takes it out of the store unless a keep-alive job is resolved; a removal takes out any job |
| JobObject.JobManager.FinishKept | jobs/jobs.go:361-409 | unblocks the waiter of a keep-alive job once and dispatches its callback; the entry stays as it was otherwise |
| JobObject.JobManager.FinishEntry | jobs/jobs.go:366-418 | unblocks the waiter, dispatches the callback, clears the entry and recycles it |
| JobObject.JobManager.SweepSection | jobs/jobs.go:525-565 | takes every entry; Close does so once and marks the manager closed |
| JobObject.JobManager.ClosePending | jobs/jobs.go:580-624 | each pending entry's callback is dispatched once if it has one, its wait channel is closed empty, and it is cleared and recycled; nothing else is dispatched |

## Left out

- `bus` delivers events to subscribers over channels that drop when full; its concurrent `Unsubscribe` and `Close` keep no invariant across their lock sections.
- `kata` reads and writes its state machine's state in separate lock sections, so two transitions can start from one state; what is left is sequential, and its `ToDOT` and `String` only format.
- `generic`'s `DataLoader` and `SingleFlight` follow the protocols of `Jobs.dfy` and `Batto.dfy` with fewer states; the rest of `generic` is helpers for slices, maps, pointers and random backoff.
- `behavior` runs registered functions in goroutines and stops them all under one lock, `sync/lazy` caches one call's result until it is reset, and `sync/spinlock` is one compare-and-swap loop: each keeps its whole state in one lock section, with nothing to interleave.
- The limiter's `sekisho.go` keeps one external `rate.Limiter` for each key and sweeps those not touched lately; what a key may do is decided inside that limiter.
- yumi `Stream`, and the inside of `rate.Limiter.Wait`, which here answers anything.
- The two early returns of `Process` (no inputs, and a context already done), and the early `ctx.Err` returns of the semaphore's and batto's entry: nothing has happened yet when they return.
- keylock `ForceUnlock` and `Keys`; jobs `SetStore`, custom stores, `NextID`, callback strategies, `Count`, and the reading end of `WaitFor`; scheduler `Debounce` and `Throttle`; breaker `OnStateChange`; orchestrator `All`.
- Go's `container/heap` is not part of the repository; its documented sifting is written out over the repository's `Less`, `Swap`, `Push` and `Pop`.
- Goroutine fairness and real clocks: progress is stated as an enabled step and a bounded number of steps.
- IEEE rounding: the limit is a real number and the smoothed time is the exact truncation of a tenth of nine parts old and one part new. Division by zero follows the IEEE rules (`Limiter.Judge`).
- The lock order in batto, where waiting takes the call's mutex before the group's and the other sections the group's before the call's: sections are atomic here, so nothing is said about deadlock.
- Service values answer `Name` and `Dependencies` always alike.
- The shared variables of the sort's closure are fields of `Sorter.DepthFirst`; `visited` and `temp` are the sets of names mapped to true.
- What a dispatched callback is given, and the context it is given: only that and how often it is dispatched.
- JobObject.JobManager.DetachSection: does not take the wait channel out of the entry, as a resolution does inside the section; here it stays in the entry until the end, and nobody else reads a detached entry.
- JobObject.JobManager.FinishKept: does not model two overlapping resolutions of one keep-alive job.
- Batto.AtMostOneWorker: one direction only; both are in `Batto.OneWorkerExactly`.
- KeyLock.KeyMutex.IsLocked: promises the entry only, as the code does; what that says about the key is in `KeyLock.IsLockedExactlyInside` and `KeyLock.IsLockedExactlyHeld`.
- Pipeline.ProcessCall.constructor: task objects are known by their input's index; which recycled object serves an input is not modelled.
