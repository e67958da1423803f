# A Dafny model of the background task queue and its helpers

This project models the parts of the repository whose behaviour is hardest to see from one function body, and
proves what they keep over every run:

- the **task queue** (`module/queue`): the scheduler as the array it is, the task state machine, the counters and
  the queue's critical sections as classes; and the whole queue as a state machine whose steps are what one
  goroutine does between two points where another can get in: clients, dispatcher, requester, workers, and the
  goroutines that run `Do` and may outlive their worker's interest in them;
- the **time-flow codec** (`pkg/util/common.go`): an incremental shuffle keyed by the digits of a time bucket, and
  the loop that undoes it;
- the **boolean set** (`pkg/boolset`): a growing bit array;
- the **memory cache** (`pkg/cache/memo.go`): entries with deadlines, collection, persist and restore.

`dafny verify dfyconfig.toml` checks everything.

| file | content |
|---|---|
| `Options.dfy`, `Tasks.dfy` | tasks and their callbacks, counters, the transition table |
| `FifoScheduler.dfy`, `SchedulerRuns.dfy`, `SchedulerClock.dfy` | the scheduler class; the discipline over runs of calls, with and without their clock; the two halves of a request |
| `TaskQueues.dfy`, `TaskRegistry.dfy` | the queue object: status changes, submission, cancellation, the start check, the ready token; the registry over runs of calls |
| `QueueProtocol.dfy`, `QueueRefinement.dfy` | the interleaved state machine; its steps against the scheduler and queue classes |
| `QueueInvariant.dfy`, `QueueDispatch.dfy`, `QueueAccounting.dfy` | the three invariants and that every step keeps them |
| `QueueTheorems.dfy`, `QueueOutcomes.dfy`, `QueueGauge.dfy`, `QueueRetries.dfy`, `QueueCorners.dfy`, `QueueOverrun.dfy` | what follows for every reachable state and every run |
| `QueueFailing.dfy`, `QueueTermination.dfy`, `QueueProgress.dfy`, `QueueAttainment.dfy` | the task that always fails: how often it runs, that it ends, that it can always move on, that the end is reached |
| `QueueWitness.dfy` | runs that reach the corners |
| `TimeFlow.dfy`, `TimeFlowRuns.dfy`, `TimeFlowLimits.dfy` | the codec and its round trip; what its two loops compute, swap by swap; where it fails |
| `BooleanSet.dfy`, `MemoStore.dfy` | the other helpers |

The classes and the state machine share the specification of a status change, `StatusAfter` and `CountersAfter`;
`QueueRefinement` proves that the specifications of the scheduler and the queue class do what the state machine's
steps do.

## Where the code is not what its names or comments say

- The scheduler is called a FIFO and its slice a heap, with an ordering by resume time. It is neither: `Push`
  appends, `Pop` takes the last element, `container/heap` is not used. It is a stack keyed by task id, above two
  nil slots that are never removed.
- `workerCount` does not bound the busy workers. A `schedule()` call at the end of one activation can leave a token
  that nobody asked for; one worker too many is then started, for every configured number
  (`QueueWitness.OneWorkerTooMany`). One too many is also the most there can be, and it takes a `schedule()`
  that comes after the free slot it saw was taken (`QueueOverrun.WithinExactly`).
- A cancellation can be lost: requeueing a suspended task consumes a mark without acting on it
  (`QueueCorners.MarkLostExactly`). And the epilogue of a task's earlier activation takes the cancel function of
  its running one away (`QueueCorners.RecordLostExactly`).
- `CancelTasks` on a waiting task removes it from the scheduler and leaves its status as it was, for good: it is
  never cancelled, and a suspended one stays on the gauge (`QueueCorners.CanceledWaitingIsForgotten`).
- `Request` reads the count without the lock. A cancellation of everything that waits, made between this look and the
  locked pop, makes it dereference a nil slot (`SchedulerRuns.NilPopExactly`,
  `QueueWitness.CancelCrashesRequester`).
- The codec's encoder takes positions from byte offsets, its decoder from rune indices. A text comes back at every
  time if and only if its runes before the last are single bytes (`TimeFlowLimits.RoundTripExactly`). Times below
  1000 have no digits: both directions panic on any non-empty text.

## Model

| member | source | states |
|---|---|---|
| QueueTheorems.StepKeeps | module/queue/queue.go:181-491 | every step of every goroutine keeps the joint invariant of tasks, workers, dispatcher, token and counters |
| QueueOutcomes.OutcomeDecides | module/queue/queue.go:266-293 | over every run from a return of `run` to the end of the activation, without another iteration: exactly one status change is attempted, to what Do answered if it did so without error and the task was unmarked when judged, to Canceled if and only if it was marked or the iteration was cancelled, to Error if and only if it failed; a final one is counted as just that and is the status if saved |
| QueueOutcomes.AnswerDecides | module/queue/queue.go:317-367 | the same from the return of Do on, over all runs in between: its answer, a suspension if it is retried, Canceled for a cancellation, Error for any other error and for a panic |
| QueueOutcomes.AnswerIsPassedOn | module/queue/queue.go:317-349 | a retry is decided if and only if Do's error is not critical, a retry is left and no shutdown has begun; every other answer is passed on as it is, with the resume second Do asked for |
| QueueOutcomes.RetryIsASuspension | module/queue/queue.go:320-338 | a decided retry counts one, records the error, sets second floor(T + d), and answers with a suspension |
| QueueOutcomes.StartDecides | module/queue/queue.go:260-264 | a saved start goes on to the iterations; after an unsaved one the worker, over every run, attempts nothing but the move to Error |
| QueueOutcomes.CheckDecides | module/queue/queue.go:242-258 | a worker that finds its task marked attempts, over every run, nothing but its cancellation; another goes on to the start |
| QueueOutcomes.ChoicesAre | module/queue/queue.go:346-367 | what `run` may return with: a result or a panic if and only if it is there, the end of the context if and only if it was cancelled, the timeout at any time |
| QueueOutcomes.AttemptIsMade | module/queue/queue.go:371-388 | an attempted change is made if and only if there is such a transition and it is saved, and counted if there is one |
| QueueOutcomes.LeftForTheClient | module/queue/task.go:436-446 | a saved suspension of a task that waits for its client ends the activation, and the client can resume the task |
| QueueOutcomes.GoesBack | module/queue/task.go:436-446 | a saved suspension of another task sends it back to the queue |
| QueueOutcomes.NotSuspended | module/queue/task.go:436-440 | a suspension that is not saved ends the activation and leaves the status |
| QueueTheorems.BusyWorkersBounded | module/queue/queue.go:390-463 | in every reachable state the busy counter is the number of activations started and not yet given back, at most workerCount + 1, and no decrement wraps round |
| QueueWitness.OneWorkerTooMany | module/queue/queue.go:390-463 | for every workerCount from 1 on, a run reaches workerCount + 1 busy workers |
| QueueOverrun.ExceededExactly | module/queue/queue.go:390-463 | of all steps only a signal grants a slot, and it grants one more than there are if and only if a worker sends it with no token stored and every slot taken |
| QueueOverrun.WithinExactly | module/queue/queue.go:390-463 | a run stays within workerCount, in slots granted and so in busy workers, if and only if no such late signal occurs in it |
| QueueOverrun.ExceededLeadsToOverrun | module/queue/queue.go:390-463 | from every reachable state with one slot too many granted, unless the requester crashed or closed or the dispatcher stopped, a run with no further step of a shutdown leads on to workerCount + 1 busy workers |
| QueueOverrun.NoOverrunWhenApart | module/queue/queue.go:390-463 | a way to avoid it: in runs where no worker is inside schedule() while the dispatcher waits for a task, workerCount is never exceeded |
| QueueDispatch.StepDispatch | module/queue/queue.go:390-463 | every step keeps: busy plus dispatcher waiting plus stored token is at most workerCount + 1, one requester at a time, and who is inside schedule() saw a free worker |
| QueueTheorems.NoLostWakeUp | module/queue/queue.go:225-240 | a dispatcher waiting without a token has an unfinished activation, and if a worker is free one that is still to call schedule() |
| QueueTheorems.TasksHaveOneHolder | module/queue/queue.go:218-368 | a task is in at most one of: client call, scheduler (once), hand-off, a worker's loop or its running Do; two workers never run Do for one task at a time, abandoned runs included |
| QueueTheorems.CountersMatchStatuses | module/queue/task.go:350-469 | while persisting works: success, failure and the suspending gauge are the numbers of Completed, of Error plus Canceled, and of Suspending tasks, and submitted is their sum plus Queued plus Processing, tasks loaded at start included |
| QueueTheorems.CountersWithoutPersistence | module/queue/task.go:350-484 | even when persisting fails no task counts twice or both ways, and submitted counts every task once |
| QueueAccounting.StepAccount | module/queue/task.go:350-469 | every step keeps each counter equal to the number of tasks that raised it and, for the gauge, have not lowered it |
| QueueTheorems.StartLowersGauge | module/queue/task.go:448-452 | starting a suspended task takes exactly its own unit off the gauge, also when the move to Processing is not saved; then it stays suspended and the worker panics |
| QueueTheorems.BlameKeepsGauge | module/queue/queue.go:225-233 | the error recorded after a panic counts one failure of a task not counted before and leaves the gauge alone |
| QueueGauge.ErrorFromSuspending | module/queue/task.go:453-456 | in every reachable state a step that attempts Error on a suspended task is the blame after a panic of an activation that never launched an iteration, with the task's unit already off the gauge |
| QueueGauge.FailedStartLowersOnce | module/queue/queue.go:225-264 | along any run from the unsaved start of a suspended task to the blame that follows, the task stays suspended and its unit is given back once, by the start, by no step in between and not by the blame |
| QueueTheorems.MarkedBeforeStart | module/queue/queue.go:242-254 | a task marked at the start check: on every continuation that activation never starts Do, and ends with the task failed and, if saved, Canceled |
| QueueTheorems.MarkedAtReturn | module/queue/queue.go:266-293 | a task marked when run returns: on every continuation no further iteration, no suspension, no completion by that activation; it ends Canceled or Error |
| QueueTheorems.MarkDroppedOnRequeue | module/queue/queue.go:189-195 | a mark set on a task on its way back to the queue is gone after requeueing, and the task is waiting on top as if never cancelled |
| QueueWitness.CancelBeforeRequeue | module/queue/queue.go:189-193 | a run reaches that situation |
| QueueCorners.MarkLostExactly | module/queue/queue.go:180-193 | a step makes a mark disappear with nobody about to cancel the task if and only if it sends the suspended task back to the queue |
| QueueCorners.MarkConsumedExactly | module/queue/queue.go:242-290 | a mark disappears if and only if a worker of its task makes its start check, judges a result or withdraws, or the task is sent back to the queue |
| QueueCorners.MarkReachesWorker | module/queue/queue.go:470-480 | marking a task whose worker's cancel function is registered reaches that worker: on every continuation, whenever it is in an iteration, it may find its context done |
| QueueCorners.CanceledWaitingIsForgotten | module/queue/queue.go:465-469 | a waiting task that is cancelled, on every continuation: never handed out or started again, queued or suspended as it was, a suspended one still on the gauge |
| QueueCorners.RecordLostExactly | module/queue/queue.go:234-238 | a task being worked on loses its registered cancel function in a step if and only if that step is the epilogue of an earlier activation of the same task; a cancellation then no longer reaches its context |
| QueueAttainment.RecordLost | module/queue/queue.go:218-259 | a run in which Do is running while its task has no registered cancel function |
| QueueTheorems.RetriesBounded | module/queue/queue.go:319-338 | retry count and error history grow together, and a task that starts at zero stays at or below maxRetry |
| QueueFailing.AlwaysFailingRunsExactly | module/queue/queue.go:319-338 | a task whose Do always fails in the ordinary way, undisturbed: at most maxRetry + 1 starts of Do (less the retries it came with), no other end than Error, and there exactly that many |
| QueueTermination.OwnStepLowers | module/queue/queue.go:218-368 | every step of such a task, its worker's or one that moves it from place to place, lowers the measure led by maxRetry minus retries |
| QueueTermination.OtherStepKeeps | module/queue/queue.go:218-491 | every other step of anybody leaves the task and its measure as they are |
| QueueTermination.OwnStepsBounded | module/queue/queue.go:218-368 | so in every undisturbed run such a task makes at most 23 steps for each retry left and 22 more |
| QueueProgress.FailingTaskMovesOn | module/queue/queue.go:218-463 | in every state an undisturbed run reaches, such a task is in error after exactly its number of starts, parked, removed by a cancellation of waiting tasks, waiting for its turn, its second or a worker, or can lower its measure within eight undisturbed steps |
| QueueProgress.TurnCanAdvance | module/queue/queue.go:390-452 | on top, due, nothing in between and a worker free: within eight steps it is handed over, wherever dispatcher, token and lock are |
| QueueProgress.TurnComes | module/queue/scheduler.go:113-116 | the task on top becomes due by the passing of time alone, at its resume second |
| QueueProgress.ShutdownStages | module/queue/queue.go:131-153 | a shutdown goes through its four stages, flag, root context, scheduler, quit, and changes nothing else |
| QueueProgress.StopsWhenQuit | module/queue/queue.go:405-452 | the dispatcher and the requester can come to their end if and only if quit is closed |
| QueueProgress.RefusalsNeedFlags | module/queue/queue.go:181-195 | the queue refuses only after its flag is up, the scheduler only after its own |
| QueueProgress.CriticalSectionsExclude | module/queue/queue.go:242-258 | while somebody is inside schedule() no mark is set or looked for, no cancel function is registered or removed, no token considered |
| QueueProgress.CriticalSectionsOpen | module/queue/queue.go:390-402 | with nobody inside, each of these is open to whoever has come to it |
| QueueAttainment.FailingEndIsReached | module/queue/queue.go:319-338 | for every workerCount from 1 and maxRetry from 0 on, an undisturbed run ends the task in Error after maxRetry + 1 starts of Do |
| QueueFailing.FailingStep | module/queue/queue.go:296-338 | each step keeps the number of Do starts within one of the number of retries, with the phase saying which |
| QueueRetries.NoEarlyRestart | module/queue/queue.go:324-337 | after a retry decided at T with delay d, the next Do of that task, by whichever worker, starts no earlier than second floor(T + d), so less than a second before T + d |
| QueueRetries.RetryIsRemembered | module/queue/task.go:330-334 | through suspension, requeueing, request and hand-off nothing overwrites the resume second of a decided retry before Do starts |
| QueueRetries.NoCrashWithoutCancel | module/queue/scheduler.go:104-123 | in every run without cancellations of waiting tasks the requester's pop finds a task, however many calls of Queue come between |
| QueueWitness.CancelCrashesRequester | module/queue/scheduler.go:109-118 | a run with one such cancellation ends at the nil slot |
| TaskQueues.TaskQueue.constructor | module/queue/queue.go:66-89 | an unlimited, empty scheduler, counters at zero, no marks, no token |
| TaskQueues.TaskQueue.ConsumeCancelled | module/queue/queue.go:483-491 | answers whether the id was marked and removes that mark only |
| TaskQueues.TaskQueue.CheckMark | module/queue/queue.go:242-258 | either the mark is consumed or the cancel function is registered |
| TaskQueues.TaskQueue.ApplyTransition | module/queue/task.go:350-484 | a table entry counts and cleans up first and changes the status only if that is saved; error and registry as the two members below tell |
| TaskQueues.TransitErrorMeaning | module/queue/queue.go:371-388 | no error if and only if there is such a transition and it was saved or need not be, and then the status is the one asked for; the two errors tell which was missing, and leave the status |
| TaskQueues.RegistryAfter | module/queue/task.go:350-469 | the task leaves the registry if and only if it completes, is cancelled, or fails while processed; no other task is touched |
| TaskQueues.TaskQueue.TransitStatus | module/queue/queue.go:371-388 | verdict, new status, counters, registry, and the requeueing of an automatically resuming task with its refusals |
| TaskQueues.TaskQueue.QueueTask | module/queue/queue.go:181-205 | the whole new state, spelled out: a submission counts even when it is then refused; it reaches the scheduler and the registry only with its status Queued, an unsaved one neither; a resumed task does not count and loses its mark |
| TaskRegistry.Drive | module/queue/queue.go:181-205 | over any sequence of submissions and status changes, with saving working: an id is registered exactly from when its task is queued until it completes, is cancelled or fails while processed, and never after |
| QueueRefinement.SubmitSteps | module/queue/queue.go:186-191 | the client's step of the state machine does what QueueTask does up to the scheduler, and goes on exactly when that has no error |
| QueueRefinement.CheckMarkSteps | module/queue/queue.go:242-258 | the worker's start check does to marks and cancel functions what the queue object's does |
| QueueRefinement.CancelTasksSteps | module/queue/queue.go:470-480 | the marking steps for a list of ids mark all of them and signal exactly the workers the queue object's method returns |
| QueueRefinement.ScheduleSteps | module/queue/queue.go:391-402 | a worker's two steps through schedule() leave a new token exactly when a slot is free |
| TaskQueues.TaskQueue.CancelTasks | module/queue/queue.go:465-481 | exactly the given ids leave the scheduler and are marked, no status changes, and one context is cancelled for every position whose id has a cancel function, that function's, in the order of the positions |
| TaskQueues.TaskQueue.Schedule | module/queue/queue.go:391-402 | one token at most, added only below workerCount |
| Tasks.TableShape | module/queue/task.go:350-469 | the whole table told without it: which transitions there are; only completion counts success, only error and cancellation failure; the gauge rises on suspension and falls on leaving it except to Error; which ends clean up; only queueing the queued is not saved |
| Tasks.StatusMoves | module/queue/task.go:473-484 | the status moves if and only if there is the transition and it is saved |
| Tasks.CountersMove | module/queue/task.go:350-469 | what each transition does to each counter, saved or not |
| Tasks.CountingWraps | module/queue/metric.go:33-56 | counting up is modulo 2^64: one more than the largest value is zero |
| Tasks.ComplementDecrements | module/queue/metric.go:37-39 | adding the complement of zero modulo 2^64 takes one away, wraps round at zero only, and undoes an increment made anywhere, and the other way round |
| Tasks.Metric.DecBusyWorker | module/queue/metric.go:37-39 | that addition lowers the busy counter by one, or wraps it at zero, and touches no other |
| Tasks.Metric.DecSuspendingTask | module/queue/metric.go:77-79 | the same addition for the suspending gauge |
| Tasks.Task.OnRetry | module/queue/task.go:315-322 | appends to the history and counts one retry, nothing else |
| Tasks.Task.OnSuspend | module/queue/task.go:330-334 | sets the resume second only |
| Tasks.Task.OnError | module/queue/task.go:308-313 | records the error and adds to the executed time, leaving status and retries |
| FifoSchedulers.FifoScheduler.CancelLocked | module/queue/scheduler.go:80-101 | compaction into the own backing array is the order-preserving filter that keeps nil slots and other ids; the result is the number dropped; nothing behind the new length is touched |
| FifoSchedulers.FifoScheduler.Queue | module/queue/scheduler.go:46-63 | refusals leave the queue as it was, acceptance replaces an entry of the same id and puts the task on top; slots 0 and 1 stay nil, the others non-nil with distinct ids, the count in step and within capacity |
| FifoSchedulers.FifoScheduler.Cancel | module/queue/scheduler.go:65-78 | removes exactly the targets in order, returns how many, the clamp at zero never changes the count |
| FifoSchedulers.FifoScheduler.PopDue | module/queue/scheduler.go:112-122 | the locked half: panics at the nil slot exactly when nothing waits, otherwise takes the top task exactly when due |
| FifoSchedulers.FifoScheduler.Request | module/queue/scheduler.go:104-123 | both halves undisturbed: the top task if due, the right error otherwise, never a panic |
| FifoSchedulers.FifoScheduler.Shutdown | module/queue/scheduler.go:126-132 | raises the flag once and refuses the second time, keeping the tasks |
| FifoSchedulers.FifoScheduler.constructor | module/queue/scheduler.go:135-143 | two nil slots, nothing waiting |
| FifoSchedulers.FifoScheduler.Push | module/queue/scheduler.go:158-160 | append in place while the array has room, otherwise into a larger copy |
| FifoSchedulers.FullMeansNothingRemoved | module/queue/scheduler.go:52-56 | when the capacity refuses, the removal before it removed nothing, so skipping the count update is harmless |
| FifoSchedulers.QueueKeepsWellFormed | module/queue/scheduler.go:46-63 | queueing keeps ids distinct and the number of tasks within the capacity |
| FifoSchedulers.QueueResultMeaning | module/queue/scheduler.go:46-56 | a task is refused if and only if the scheduler was shut down, or is at its capacity with other tasks |
| FifoSchedulers.KeepStaysAt | module/queue/scheduler.go:80-101 | the filter by positions: exactly those of the nil slots and of other ids, in their order |
| FifoSchedulers.WithoutIdsAt | module/queue/scheduler.go:80-101 | the same for ids |
| FifoSchedulers.KeepSlots | module/queue/scheduler.go:80-101 | filtering the slots is filtering the tasks above the two nil slots |
| FifoSchedulers.WithoutMeaning | module/queue/scheduler.go:80-101 | the filter keeps exactly the tasks outside the targets, in order, and ids stay distinct |
| FifoSchedulers.StackByIds | module/queue/scheduler.go:46-123 | queueing, cancelling and requesting act on the ids of the waiting tasks alone |
| QueueRefinement.QueueSteps | module/queue/scheduler.go:46-63 | where the ids agree, accepting a task does to the stack what the client's step does to the state |
| QueueRefinement.PushSteps | module/queue/scheduler.go:46-63 | and what a worker's requeueing step does |
| QueueRefinement.CancelSteps | module/queue/scheduler.go:65-78 | cancelling does to the stack what the cancelling step does |
| QueueRefinement.PopSteps | module/queue/scheduler.go:112-122 | and the locked pop what the requester's step does: nil slot, not due, or handed over |
| SchedulerRuns.RunKeepsWellFormed | module/queue/scheduler.go:46-132 | every sequence of calls from any capacity keeps ids distinct and the capacity respected |
| SchedulerRuns.Conservation | module/queue/scheduler.go:46-123 | over any run, accepted = waiting + served + cancelled + displaced, as multisets of tasks |
| SchedulerRuns.AcceptedIsExplained | module/queue/scheduler.go:46-63 | what the ledger has as accepted, some call queued and the scheduler accepted |
| SchedulerRuns.ServedIsExplained | module/queue/scheduler.go:104-123 | what it has as served, some request was answered with |
| SchedulerRuns.CancelledIsExplained | module/queue/scheduler.go:65-78 | what it has as cancelled, some cancellation named while it was waiting |
| SchedulerRuns.DisplacedIsExplained | module/queue/scheduler.go:46-63 | what it has as displaced, some accepted queueing had the id of while it was waiting |
| SchedulerRuns.ShutdownStops | module/queue/scheduler.go:126-132 | over any run, the scheduler is stopped exactly from its first shutdown on |
| SchedulerRuns.NextById | module/queue/scheduler.go:46-132 | what each call does to the ids that wait |
| SchedulerRuns.WaitingAreTheSurvivors | module/queue/scheduler.go:46-123 | the waiting tasks are exactly the queueings not displaced, cancelled or served since, in queueing order |
| SchedulerRuns.RequestServesTheLastSurvivor | module/queue/scheduler.go:104-123 | a request answers with the last surviving queueing if due and with nothing otherwise |
| SchedulerClock.RequestByTheClock | module/queue/scheduler.go:104-123 | with clock and resume seconds: the last surviving queueing is taken if and only if its resume second has come, whatever else is due |
| SchedulerClock.EventsBecomeCalls | module/queue/scheduler.go:46-132 | the calls of such a run are those of its events, one by one |
| SchedulerRuns.NilPopExactly | module/queue/scheduler.go:109-118 | between glance and pop, any queueings, cancellations and shutdown: the pop meets nil if and only if some cancellation took all that waited and nothing was accepted after it |
| SchedulerRuns.QueueingKeepsTheTop | module/queue/scheduler.go:109-118 | with queueings only, there is a task to pop |
| SchedulerRuns.NilPopWitness | module/queue/scheduler.go:104-123 | glance, cancel, pop on the class ends at the nil slot |
| TimeFlow.EncodeTimeFlowString | pkg/util/common.go:256-299 | the loop computes the shuffle by byte-offset slots, or panics |
| TimeFlowRuns.EncodeRuns | pkg/util/common.go:265-296 | that, swap by swap: the decimal number of the bucket, a bar and the text, each rune appended and exchanged with the position that its bytes in front, its step and the step's digit give, the arithmetic written out |
| TimeFlow.DecimalReads | pkg/util/common.go:265 | the number in front, read digit by digit by its character codes, is the bucket, without leading zeros |
| TimeFlow.DecimalIsTheOnly | pkg/util/common.go:265 | no other text reads so |
| TimeFlow.WidthIsUtf8 | pkg/util/common.go:274 | the width of a rune is the number of its UTF-8 bytes, which spell its code point by section 3 of RFC 3629 |
| TimeFlow.DecodeTimeFlowStringTime | pkg/util/common.go:301-349 | the loop computes the unshuffle by rune-index slots, or panics |
| TimeFlowRuns.DecodeRuns | pkg/util/common.go:314-346 | that is the one text which the same swaps, each rune numbered by the runes in front of it, take to the code |
| TimeFlow.UndoSwaps | pkg/util/common.go:314-346 | the reverse loop, whose digit index and sign start from remainders, undoes the swaps last to first |
| TimeFlow.StartFromTheEnd | pkg/util/common.go:318-322 | the decoder's starting digit and sign are those the encoder reaches at the last rune |
| TimeFlow.UnshuffleShuffle | pkg/util/common.go:273-346 | for any slots, unshuffling undoes shuffling |
| TimeFlow.ShuffleUnshuffle | pkg/util/common.go:273-346 | and shuffling undoes unshuffling, so both are bijections |
| TimeFlow.ShufflePermutes | pkg/util/common.go:273-296 | shuffling keeps the multiset of runes |
| TimeFlow.UnshufflePermutes | pkg/util/common.go:314-346 | so does unshuffling |
| TimeFlow.EncodePanicsExactly | pkg/util/common.go:256-309 | both directions panic exactly on non-empty text at times below 1000, and return empty text as it is |
| TimeFlow.RoundTrip | pkg/util/common.go:256-349 | times from 1000 on, runes before the last single bytes: decoding in the same bucket gives a text that reads as the bucket's decimal number, a bar and the text |
| TimeFlowLimits.RoundTripExactly | pkg/util/common.go:273-346 | for every non-empty text: it comes back at every 64-bit time from 1000 on if and only if its runes before the last are single bytes; the times below 10^12 already decide |
| TimeFlowLimits.RoundTripSoonExactly | pkg/util/common.go:273-346 | the same for the times below 102000, unless the first wide rune is a four-byte one at a place divisible by six and the first rune occurs again |
| TimeFlowLimits.RoundTripsWhenShufflesAgree | pkg/util/common.go:273-346 | at one time, the text comes back exactly when byte offsets and rune indices shuffle it alike |
| TimeFlowLimits.WideRuneBreaks | pkg/util/common.go:274-290 | for every text with a wider rune before its last, a time below 10^12, mostly below 102000, at which it does not come back |
| TimeFlowLimits.OneOfTwoBreaks | pkg/util/common.go:274-346 | two neighbouring buckets share their slots, so a text whose encoding moves the units digit where decoding does not look is lost in one of them |
| TimeFlowLimits.QuietStep | pkg/util/common.go:322-341 | a finite condition on the digits under which the decoder picks a given slot at no later step of any text |
| TimeFlowLimits.MultiByteWitness | pkg/util/common.go:274-290 | a two-rune text that is lost at a time below 102000 |
| BooleanSets.BooleanSet.Enabled | pkg/boolset/boolset.go:47-53 | the flag's bit, false beyond the array |
| BooleanSets.TestIsBit | pkg/boolset/boolset.go:47-53 | flag g is bit g mod 8 of byte g / 8, the lowest being bit 0, by mask and by division |
| BooleanSets.BooleanSet.Set | pkg/boolset/boolset.go:77-87 | changes the answer for its flag only, growing just enough |
| BooleanSets.BooleanSet.Sets | pkg/boolset/boolset.go:70-74 | whatever order the map is walked in, its flags answer as the map says, the others as before, and the bytes are those of any order |
| BooleanSets.Transfer | pkg/boolset/boolset.go:28-36 | a set unmarshalled from what another one marshalled answers every flag alike, whatever it held before, and still does after the same change to both |
| BooleanSets.PutAllMeaning | pkg/boolset/boolset.go:47-87 | after any sequence of Set calls every flag answers with its last value or its initial one, and the length is the maximum needed |
| BooleanSets.PutCommutes | pkg/boolset/boolset.go:77-87 | Set on distinct flags commutes byte for byte, growth included |
| BooleanSets.OrderIrrelevant | pkg/boolset/boolset.go:70-74 | every iteration order of the map yields the same bytes |
| BooleanSets.SameAnswersSameBytes | pkg/boolset/boolset.go:47-53 | arrays of one length that answer alike are equal |
| MemoStores.StoreAnswers | pkg/cache/memo.go:28-204 | under a clock that does not go back, every read after any history of sets, batch sets, deletions, collections and restarts is what the history alone says |
| MemoStores.CollectionInvisible | pkg/cache/memo.go:59-69 | a collection changes no later read |
| MemoStores.CollectionVisibleExactly | pkg/cache/memo.go:50-69 | a read tells a collected store from a kept one if and only if it goes back to an entry's expiry second or before, after it was collected |
| MemoStores.Restart | pkg/cache/memo.go:140-195 | persist and restore into a new store change no read from the restore on |
| MemoStores.MemoStore.constructor | pkg/cache/memo.go:72-84 | empty, or the live entries of the file |
| MemoStores.MemoStore.Set | pkg/cache/memo.go:87-90 | stores the value with its deadline, other keys unchanged |
| MemoStores.MemoStore.Get | pkg/cache/memo.go:93-95 | answers up to and including the expiry second, and without end for deadlines not positive |
| MemoStores.MemoStore.Gets | pkg/cache/memo.go:98-111 | found values by unprefixed key; the missing keys by increasing positions, exactly those without an answer |
| MemoStores.MemoStore.Sets | pkg/cache/memo.go:114-119 | every prefixed key gets its value without deadline, in whatever order |
| MemoStores.MemoStore.Delete | pkg/cache/memo.go:122-137 | exactly the named keys, or every key with the prefix when none is named |
| MemoStores.MemoStore.GarbageCollect | pkg/cache/memo.go:59-69 | removes exactly the expired entries, and no later read notices |
| MemoStores.MemoStore.Persist | pkg/cache/memo.go:140-158 | exactly the live entries with their deadlines |
| MemoStores.MemoStore.Restore | pkg/cache/memo.go:161-195 | entries still live are laid over what is there |
| MemoStores.MemoStore.DeleteAll | pkg/cache/memo.go:197-204 | leaves nothing |

## Left out

Of the repository:

- Generated database code and its plumbing, protobuf code, the Redis cache, requests, middlewares, logging, sessions, file-system helpers: no hard property, or I/O.
- Path helpers, option setters, error-code tables, the task registry's own code: easy or finite.
- Serialization (gob, JSON, base64), file reading and writing: taken as identity, with a missing file as `None` and read errors not modelled.

Of the queue:

- The loops of `work`, `run` and `start`: they are modelled as interleaved steps on values, because what matters about them is what other goroutines do in between; the classes carry their critical sections.
- Step size: a status change and its counters are one step, and so are marking and firing the cancel function. Flags read outside a lock are over-approximated: an acceptance is possible at any time, a refusal only after the flag went up, and marking may happen to any id at any time. Start-up loading happens before the dispatcher's first round, and its queueing may overlap with it.
- Registry: only in the classes, which assume one is given. That `QueueTask` registers a task after it can already have been picked up is not stated as a property.
- Time and outcomes: what `Do` does, how long things take, retry delays, the execution budget, whether persisting works, and when the clock advances are free choices of the run; the clock never goes back.
- Panics in `Cleanup` and in other callbacks, the tracing and error text, and the executed duration beyond its callback.
- The 32-bit conversion of the counters. The metric counts modulo 2^64 in both directions; the state machine's counters are the numbers of events, not yet reduced.
- Client behaviour: each task is submitted once, new, queued or processing; a suspended task is only resumed after it was left for the client; ids are unique; `Start` is called once and workerCount is at least one.
- QueueFailing.AlwaysFailingRunsExactly: by itself says how such a task ends, not that it does; that its steps are bounded and can be made as long as it has not ended is `QueueTermination.OwnStepsBounded` and `QueueProgress.FailingTaskMovesOn`. That the environment goes on to make them, fairness of the scheduler of goroutines, is not modelled.
- QueueOverrun.NoOverrunWhenApart: a sufficient condition only; the exact one is `QueueOverrun.WithinExactly`.

Of the helpers:

- Invalid UTF-8 in the codec, which would decode to replacement runes: a rune is one character of the text.
- Negative flags of the boolean set, `String`, `Scan`, `Value`, and the aliasing of the slice that `MarshalBinary` hands out.
- Raw values put into the cache's exported map without a deadline, a clock before 1970, and a clock that advances within one cache operation; concurrent use of the map.
