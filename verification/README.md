# A verified model of the ethreads runtime

ethreads is a C++ coroutine runtime whose value lies in small hand-written concurrency
protocols: a work-stealing deque, a one-word continuation handoff, the life of a coroutine
task, cancellation callbacks and waiters, a timer thread with cancellable sleeps, a blocking
call that can be cancelled, monitors (channel, semaphore, barrier), and the code that splits
and distributes work. This project models them in Dafny and proves what they promise, over
every input and every interleaving.

`dafny verify dfyconfig.toml` checks everything.

## How it is modelled

Each protocol appears in up to two forms.

* **As the object one thread uses.** A class with the fields of the C++ class and methods that
  update them, loops included, proved against functions on values (a ring as a value, the
  contents of the deque, the registry of callbacks, the woken handles, the sections of a
  monitor).
* **As a step machine.** A `State` datatype holds the shared words, the local program counters
  and registers of any number of threads, and history that no step reads (what was pushed,
  returned, scheduled, resumed). `Step(s, a, s')` is one atomic load, store, compare-and-swap or
  lock section. A weak compare-and-swap may fail for no reason, a condition wait may wake for no
  reason, and atomics that the code changes outside a mutex can change while somebody else is
  inside. A `Run` (module `Runs`) is any finite sequence of steps from an initial state; `IsRun` says it is one.
  Each module has an invariant, a lemma that every step keeps it, an induction over runs, and
  then the theorems, which speak about every run.

| file | models |
|---|---|
| `Masking`, `Rings` | index masking and the growable ring as a value |
| `WsDeque`, `WsDequeMachine` | the deque as a class over an array; one owner and any number of thieves |
| `Handoff`, `CoroTask`, `TaskObject` | the tagged word; starters, awaiters, worker and destructor; the task as a class, tied to the machine |
| `Cancellation` | callback registry: registrations, removals and the first cancel |
| `WaiterList`, `CancellationWaiters` | the intrusive list as a class; waiters against cancel |
| `TimerHeap`, `TimerService`, `Sleep` | the heap; the service as a class; sleeps, timer thread, shutdown and cancels together |
| `BlockingAwaiter` | pool task, cancel and late registration racing for one flag |
| `Monitor`, `Channel`, `Semaphore` | the law of notify_one; two monitors built on it |
| `Barrier` | phases with dropping participants |
| `BatchTask`, `Scheduler` | cutting a range into batches; submissions and the steal scan |
| `Runs`, `Counting`, `Wrappers` | finite runs of a machine; how often something occurs in a sequence; Option |

Memory is sequentially consistent, thread counts are unbounded, and handles, callbacks, nodes
and elements are names. What the code leaves to `std::push_heap` and `std::pop_heap` is the
relation `PushHeap`/`PopHeap`, with one implementation that is proved to satisfy it.

## Where the code does less than it seems to promise

Each of these is proved: the condition under which the promise holds, in both directions, and
where it fails a run or an input that shows it.

* `ws_deque` takes any initial capacity, but its masked index works for exactly the powers of two
  (`Masking.MaskedRingIffPowerOfTwo`); with any other capacity an element that still fits overwrites
  the first one (`Rings.HoldsContentsIffPowerOfTwo`).
* A second coroutine that awaits the same task is refused: all coroutines that await it are resumed
  exactly if there is only one (`Handoff.AllResumedIffOne`, `Handoff.ResumedIffInstalled`), and there is a run in which the task is finished and
  freed while the second awaiter is still suspended (`Handoff.SecondConsumerRefused`,
  `CoroTask.SecondAwaiterRefused`), where it stays (`CoroTask.RefusedForGood`).
* The result of a task is moved out of the shared state, so the k-th caller to get it receives what
  k moves have left of the value (`CoroTask.ReadersGetResidues`). As soon as two callers get it, all of
  them get what was stored exactly if that is an exception or a value that a move leaves as it was
  (`CoroTask.AllGetItIffMoveCopies`): an `int` is (`CoroTask.CopyingMove`), a vector that is not empty
  is not (`CoroTask.EmptyingMove`).
* The comment at `include/sleep.hpp:66-67` says that unregistering keeps a callback from running
  after the awaiter has returned. It can run later (`Cancellation.UnregisterCanBeTooLate`); it never
  runs exactly if an unregister did not see the cancelled flag
  (`Cancellation.UnregisterWorksIffInTime`). The sleep itself is safe nevertheless, because of its gate.
* `timer_service::shutdown` sets its flag outside the mutex, so its one notification can be lost. The
  timer thread can wait on without having been notified exactly if it was, when the notification came,
  past its check of the flag and on its way into a wait, on the empty heap or until a deadline that is
  not due yet (`Sleep.WaitsThroughShutdownIffMissed`). Both happen (`Sleep.ShutdownCanMissTheTimer`,
  `Sleep.ShutdownCanMissTheTimedWait`); the second delays shutdown until the deadline, the first for good
  unless a timer is added or the wait ends by itself.
* A blocking call can read the result and the exception while the pool task has still to write them, and
  nothing orders the two: exactly if the call was given a cancellation token
  (`BlockingAwaiter.OverlapsIffToken`, with `BlockingAwaiter.CancelledReadsWhilePoolWrites` as the run), and
  then only after a cancellation (`BlockingAwaiter.ReadsOverlapOnlyIfCancelled`).
* A bounded channel of capacity 0 leaves a sender and a receiver asleep past each other, and no
  other capacity does (`Channel.BothAsleepOnlyWithoutCapacity`).
* `add_batch_task` divides by zero exactly if the range is not queued whole and the reported
  concurrency or the calling thread's cache line size, which is set only on some threads, is zero
  (`BatchTask.AddBatchTask`). The batch size is a number of cache lines that is used as a number of
  elements; so there are never more full batches than threads, whatever the number of items, exactly if
  an element fills a cache line (`BatchTask.NeverMoreBatchesThanThreadsIff`).
* The comment at `src/coro_scheduler.cpp:130-134` says that the workers' own deques hold continuations.
  The model has such a push, keeps its promises with it, and then steals (`Scheduler.PushedIsStolen`);
  the code has none, and without it every pop and every steal comes back empty
  (`Scheduler.DequesStayEmpty`).
* What is queued at shutdown can be left behind (`Scheduler.QueuedAtShutdown`). Once the flag is set each
  worker resumes at most one more submission, and none if it has still to check the flag
  (`Scheduler.AtMostOneMoreEach`). In the code as it is, a submission in the external queue can still be
  resumed exactly if its handle can be and, after the flag, the workers that are past their check and on
  their way to that queue outnumber the submissions in front of it
  (`Scheduler.QueuedCanBeResumedIff`); when all have left, nothing that waits is resumed
  (`Scheduler.WaitingIsLeftBehind`).

## Model

| member | source | states |
|---|---|---|
| Masking.MaskedRingIffPowerOfTwo | include/ws_deque.hpp:107-115 | `i & (n-1)` sends any n consecutive indices to different slots if and only if n is a power of two |
| Rings.HoldsContentsIffPowerOfTwo | include/ws_deque.hpp:107-115 | a ring holds everything that is put into it up to its capacity if and only if the capacity is a power of two |
| Rings.PutElsewhere | include/ws_deque.hpp:113-115 | a write at one index leaves every other index of the same window readable as before |
| Rings.GrowKeeps | include/ws_deque.hpp:117-123 | the doubled ring reads the same as the old one at every index of [t, b) |
| WsDeque.CircularArray.constructor | include/ws_deque.hpp:109 | n blank slots for any n; a usable ring exactly if n is a power of two |
| WsDeque.CircularArray.Get | include/ws_deque.hpp:113 | the element of a logical index, through the mask |
| WsDeque.CircularArray.Put | include/ws_deque.hpp:115 | the array becomes the value-level ring with that index written |
| WsDeque.CircularArray.Grow | include/ws_deque.hpp:117-123 | the copying loop yields the value-level grown ring in a fresh array and leaves the old one alone |
| WsDeque.Deque.constructor | include/ws_deque.hpp:18-20 | any capacity is accepted; an empty, usable deque exactly if it is a power of two |
| WsDeque.Deque.Push | include/ws_deque.hpp:28-41 | appends to the contents, across growth |
| WsDeque.Deque.Pop | include/ws_deque.hpp:44-73 | removes and returns the last element, or finds the deque empty; `b - 1` never wraps |
| WsDeque.Deque.Steal | include/ws_deque.hpp:76-92 | removes and returns the first element, or finds the deque empty |
| WsDeque.Deque.Empty | include/ws_deque.hpp:94-98 | true exactly if nothing is in it |
| WsDeque.Deque.Size | include/ws_deque.hpp:100-104 | the number of elements in it |
| WsDequeMachine.StepRefinesQueue | include/ws_deque.hpp:28-92 | every step of owner or thief keeps the invariant and is, on the queue and the owner's current call, the sequential operation it reports: a successful steal returns the front, whatever ring the thief read |
| WsDequeMachine.EveryRunIsAQueueHistory | include/ws_deque.hpp:28-92 | linearizability: every interleaving replays on a plain double-ended queue whose owner pushes what push was called with and is answered by pop with what it took, or with nothing if the queue was empty, and ends with the deque's contents |
| WsDequeMachine.NothingLostNothingTwice | include/ws_deque.hpp:28-92 | pushed = returned by pop or steal + still inside + in the owner's hand, for every element and run |
| WsDequeMachine.FastPathIsPrivate | include/ws_deque.hpp:49-67 | when pop read t < b, no thief in any state can still take index b |
| WsDequeMachine.LastElementHasOneTaker | include/ws_deque.hpp:57-66 | the thief first: if a thief takes the last element while pop is about to, pop finds nothing |
| WsDequeMachine.PopTakesTheLast | include/ws_deque.hpp:57-67 | pop first: its compare-and-swap takes the one element and moves top past it |
| WsDequeMachine.TopIsMonotone | include/ws_deque.hpp:59-84 | along a run top is never lowered |
| WsDequeMachine.PassedIndexIsGivenUp | include/ws_deque.hpp:82-88 | whoever holds an index that top has passed, at that time or later, gives up at its compare-and-swap |
| WsDequeMachine.EmptyHandedThief | include/ws_deque.hpp:77-91 | a thief that stops at its bottom check has seen an empty deque, a lost race, or the one element being popped |
| WsDequeMachine.GuardsHold | include/ws_deque.hpp:33-39 | `b - t` never wraps, every ring pointer in use is valid, top <= bottom while the owner is idle |
| Handoff.EncodingIsFaithful | include/shared_state/continuation_handoff.hpp:39-40 | flag and even address survive the tagging, in both directions |
| Handoff.ContinuationHandoff.SetReady | include/shared_state/continuation_handoff.hpp:49-61 | sets the flag; true exactly if it was clear and a continuation was installed |
| Handoff.ContinuationHandoff.SetContinuation | include/shared_state/continuation_handoff.hpp:66-82 | installs into an empty word only; hands the handle back exactly if the producer was ready |
| Handoff.ContinuationHandoff.GetContinuation | include/shared_state/continuation_handoff.hpp:85-90 | the installed address, or the no-op |
| Handoff.StepKeepsInv | include/shared_state/continuation_handoff.hpp:49-90 | the invariant over all producers and consumers survives every load, retry and exchange |
| Handoff.InstalledForGood | include/shared_state/continuation_handoff.hpp:66-82 | along a run the installed address never changes and ready is never taken back |
| Handoff.ExactlyOneResumes | include/shared_state/continuation_handoff.hpp:49-90 | once all calls have returned, either one producer resumes the installed continuation or its consumer does, never both |
| Handoff.ResumedIffInstalled | include/shared_state/continuation_handoff.hpp:66-82 | a consumer is resumed if and only if its continuation is the installed one |
| Handoff.AllResumedIffOne | include/shared_state/continuation_handoff.hpp:66-82 | once all calls have returned, every consumer is resumed if and only if there is exactly one |
| Handoff.SecondConsumerRefused | include/shared_state/continuation_handoff.hpp:70-72 | a run of one producer and two consumers in which all calls return and the second consumer is refused |
| CoroTask.StepKeepsInv | include/coro_task.hpp:142-166 | one invariant over coroutine, callers and destructor survives every step |
| CoroTask.NoUseAfterDestroy | include/coro_task.hpp:208-226 | no step of anybody touches the frame or the shared state after it is gone |
| CoroTask.DestroyedOnlyAtTheEnd | include/coro_task.hpp:208-226 | the frame goes only when the coroutine is suspended for good, or was never started |
| CoroTask.ScheduledOnce | include/coro_task.hpp:233-237 | the handle is scheduled at most once, and exactly once if started and no call is in progress |
| CoroTask.ResumedAtMostOnce | include/coro_task.hpp:142-166 | every awaiter's resumptions, counted over the run: one if it runs again, else none |
| CoroTask.EveryoneServed | include/coro_task.hpp:233-247 | after the end, every caller but a refused one has returned, was resumed exactly once if it was suspended, and got an outcome |
| CoroTask.ReadersGetResidues | include/coro_task.hpp:62-69 | whoever got an outcome got it once, and the k-th to get it received the exception, or what k moves have left of the value |
| CoroTask.TwoReadersAgreeIff | include/coro_task.hpp:62-69 | two callers both get what was stored if and only if it is an exception or the moves before each left the value as it was |
| CoroTask.AllGetItIffMoveCopies | include/coro_task.hpp:62-69 | as soon as two callers get it: all get what was stored if and only if it is an exception or moving out of it leaves it as it was |
| CoroTask.CopyingMove | include/coro_task.hpp:68 | a run over ints in which two callers get the value |
| CoroTask.EmptyingMove | include/coro_task.hpp:68 | a run over vectors in which the second caller gets an empty one |
| CoroTask.RefusedForGood | include/coro_task.hpp:239-246 | a caller that the handoff refused stays suspended, whatever step is taken |
| CoroTask.SecondAwaiterRefused | include/coro_task.hpp:239-246 | a run in which the task is finished and freed while a second awaiter is still suspended |
| TaskObject.SharedState.SetValue | include/coro_task.hpp:46-52 | result stored and ready |
| TaskObject.SharedState.SetException | include/coro_task.hpp:54-60 | exception stored and ready |
| TaskObject.SharedState.Get | include/coro_task.hpp:62-69 | one look at the wait predicate: waits on, or delivers the outcome; a value is moved out, an exception stays |
| TaskObject.SharedState.FinalSuspend | include/coro_task.hpp:142-166 | marks the handoff ready, returns the continuation exactly if this call is to resume it, and publishes completion |
| TaskObject.Task.constructor | include/coro_task.hpp:276-281 | a fresh task: not started, nothing installed, nothing stored |
| TaskObject.Task.Start | include/coro_task.hpp:264-270 | schedules the handle if nobody has |
| TaskObject.Task.AwaitReady | include/coro_task.hpp:229-231 | whether the result is there |
| TaskObject.Task.AwaitSuspend | include/coro_task.hpp:233-247 | schedules if nobody has, installs the awaiter if nobody is, and goes on at once exactly if the task is done and nobody was installed before |
| TaskObject.Task.Get | include/coro_task.hpp:249-255 | start, then one look at the wait predicate: the outcome exactly if it is there |
| TaskObject.Task.Destroy | include/coro_task.hpp:208-226 | one look at the spin flag: frees the frame exactly if the task was never started or is finally suspended, else spins on |
| TaskObject.UninterruptedStart | include/coro_task.hpp:264-270 | the object's start is a path of one caller's steps in the interleaved model with the same effect |
| TaskObject.UninterruptedAwait | include/coro_task.hpp:233-247 | so is its co_await, and the caller ends parked, refused or going on as the object says |
| TaskObject.UninterruptedFinish | include/coro_task.hpp:142-166 | so is the final suspension, with the same continuation |
| TaskObject.UninterruptedGet | include/coro_task.hpp:62-69 | get delivers in the interleaved model what the object delivers, and has no step exactly while the object says it waits |
| TaskObject.UninterruptedDestroy | include/coro_task.hpp:208-226 | the destructor's own steps free the frame, or spin without end, as the object says |
| Cancellation.CancellationState.constructor | include/cancellation.hpp:92-98 | not cancelled, no callbacks, ids start at 1 |
| Cancellation.CancellationState.Cancel | include/cancellation.hpp:34-50 | the first cancel empties the registry and runs exactly its callbacks in order; a later one does nothing |
| Cancellation.CancellationState.RegisterCallback | include/cancellation.hpp:54-64 | registers under the next id, or runs at once and returns 0 |
| Cancellation.CancellationState.UnregisterCallback | include/cancellation.hpp:66-90 | erases exactly the entry with that id, keeping ids and callbacks aligned |
| Cancellation.StepKeepsInv | include/cancellation.hpp:34-90 | the invariant over registrations, removals and cancel survives every step |
| Cancellation.IdsStayAligned | include/cancellation.hpp:54-90 | ids are strictly increasing and stand beside their callback, in every reachable state |
| Cancellation.InvokedAtMostOnce | include/cancellation.hpp:34-90 | no callback runs twice and an erased one never runs |
| Cancellation.InvokedExactlyOnce | include/cancellation.hpp:34-64 | once the first cancel is through, every callback whose registration returned and that was not erased has run exactly once |
| Cancellation.UnregisterWorksIffInTime | include/cancellation.hpp:66-90 | a registered callback never runs if and only if some unregister for its id did not see the flag |
| Cancellation.UnregisterCanBeTooLate | include/sleep.hpp:65-71 | a run in which unregister returns first and the callback runs afterwards |
| WaiterList.List.AddWaiter | include/shared_state/crtp_base.hpp:90-97 | the node becomes the front of the linked list; nothing else moves |
| WaiterList.List.Schedule | include/shared_state/crtp_base.hpp:130-140 | a node's handle is scheduled if it has no gate or its gate was open, and the gate is fired |
| WaiterList.List.WakeChain | include/shared_state/crtp_base.hpp:128-142 | the loop: the handles that are woken, in order, and the gates that are fired |
| WaiterList.List.WakeAll | include/shared_state/crtp_base.hpp:125-143 | empties the list, fires each reached gate, and schedules, in order, each handle that is ungated or the first to find its gate open |
| CancellationWaiters.StepKeepsInv | include/cancellation.hpp:109-117 | the invariant over list links, wakers and pending re-checks survives every step |
| CancellationWaiters.NobodyScheduledTwice | include/cancellation.hpp:34-50 | no double wakeup, whichever waker took the node |
| CancellationWaiters.NobodyForgotten | include/cancellation.hpp:109-117 | no lost wakeup: when all calls have returned the list is empty and every waiter was scheduled exactly once |
| CancellationWaiters.LinksAreLive | include/shared_state/crtp_base.hpp:125-143 | a waker reads a node's link only while the node is still there |
| TimerHeap.FrontIsEarliest | src/timer_service.cpp:92-95 | the front of the heap has the earliest deadline |
| TimerHeap.Push | src/timer_service.cpp:22-24 | a heap again, with exactly one entry more |
| TimerHeap.Pop | src/timer_service.cpp:97-99 | a heap again, with exactly the front gone |
| TimerService.Service.AddTimer | src/timer_service.cpp:15-41 | both forms of add_timer push one entry for the timer |
| TimerService.Service.Fire | src/timer_service.cpp:101-110 | a live timer whose gate is open is fired and its handle scheduled; any other is left alone |
| TimerService.Service.Round | src/timer_service.cpp:84-120 | one round waits for work, waits until the earliest deadline, or pops a due minimum and resumes it |
| TimerService.Service.Drain | src/timer_service.cpp:66-78 | at shutdown every live timer left is fired, each gate's handle scheduled once, in heap order |
| Sleep.StepKeepsInv | src/timer_service.cpp:15-121 | one invariant over sleepers, timer thread, shutdown and cancellation sources survives every step |
| Sleep.ScheduledAtMostOnce | include/sleep.hpp:40-63 | a sleeper is scheduled at most once across timer, cancel, late registration and drain |
| Sleep.ScheduledExactlyOnce | include/sleep.hpp:40-63 | as soon as its entry is processed or its callback has run, by cancel or inside a late registration, the gate is won, and it is scheduled exactly once after the winner's next step |
| Sleep.ShutdownLeavesNobody | src/timer_service.cpp:66-78 | after the drain every sleeper ever added has been scheduled once |
| Sleep.ResultIsRight | include/sleep.hpp:65-76 | completed implies the deadline had passed or the service was shutting down; a cancellation-driven resume reports cancelled |
| Sleep.TimerDoesNotOversleep | src/timer_service.cpp:81-120 | while the timer waits un-notified until d, every entry is due at d or later, or its adder is about to notify |
| Sleep.PopsTheEarliest | src/timer_service.cpp:92-99 | what is popped is due and a minimum |
| Sleep.EntriesConserved | src/timer_service.cpp:15-41 | added = in the heap + popped, until the drain |
| Sleep.WaitsOnlyIfMissed | src/timer_service.cpp:81-120 | after shutdown's notification the timer thread is in an un-notified wait only if it was on its way into one when that came |
| Sleep.WaitsThroughShutdownIffMissed | src/timer_service.cpp:58-64 | a run can go on to such a wait if and only if the timer thread is past its flag check and on its way into a wait, on the empty heap or until a deadline not yet due |
| Sleep.ShutdownCanMissTheTimer | src/timer_service.cpp:58-64 | a run that ends with the timer asleep on the empty heap and shutdown waiting for it |
| Sleep.ShutdownCanMissTheTimedWait | src/timer_service.cpp:112-119 | for every deadline a run that ends in the timed wait, with shutdown waiting for it |
| BlockingAwaiter.StepKeepsInv | include/async_runtime.hpp:75-125 | the invariant over pool task, cancel, registration and reader survives every step |
| BlockingAwaiter.ScheduledOnce | include/async_runtime.hpp:81-113 | the coroutine is scheduled at most once, and exactly once when the pool task and the winner are through |
| BlockingAwaiter.ResultIsRight | include/async_runtime.hpp:116-125 | status names the winner of the flag; completed carries exactly what the callable returned or threw; cancelled means the source was cancelled |
| BlockingAwaiter.GetIsSafe | include/async_runtime.hpp:31-37 | get never reads an empty optional, and returns a value if and only if the pool task won and returned it |
| BlockingAwaiter.OverlapsIffToken | include/async_runtime.hpp:75-125 | the coroutine can be reading what the pool task has still to write if and only if the call was given a cancellation token |
| BlockingAwaiter.ReadsOverlapOnlyIfCancelled | include/async_runtime.hpp:94-125 | in such a state the winner is not the pool task and the source was cancelled; the status is never written while it is read |
| BlockingAwaiter.CancelledReadsWhilePoolWrites | include/async_runtime.hpp:97-125 | the run with a token after which the next steps read and write the result |
| Monitor.DepositAndNotify | include/shared_state/crtp_base.hpp:63-65 | one more thing with one notification strands nobody |
| Monitor.TakeAndLeave | include/shared_state/crtp_base.hpp:46-49 | a taker that leaves with one thing strands nobody |
| Channel.SyncChannel.constructor | include/shared_state/channel.hpp:82 | an open, empty channel |
| Channel.SyncChannel.TrySend | include/shared_state/channel.hpp:101-115 | sends, and notifies one receiver, exactly if open and not full; otherwise nothing changes |
| Channel.SyncChannel.FinishSend | include/shared_state/channel.hpp:92-97 | after the wait: sends and notifies one receiver, or reports the close |
| Channel.SyncChannel.TryReceive | include/shared_state/channel.hpp:156-168 | hands out the next value in sending order and notifies one sender of a bounded channel, or finds everything received |
| Channel.SyncChannel.Size | include/shared_state/channel.hpp:192-195 | values sent and not yet received |
| Channel.SyncChannel.SetClosed | include/shared_state/crtp_base.hpp:232 | the flag is set and nothing else changes |
| Channel.SyncChannel.OnClose | include/shared_state/channel.hpp:59-64 | everybody at either condition variable is woken |
| Channel.SyncChannel.Close | include/shared_state/crtp_base.hpp:231-235 | closed, what is buffered stays, and nobody is left asleep |
| Channel.StepKeepsInv | include/shared_state/channel.hpp:85-189 | the invariant over calls, buffer, both wait sets and closers survives every step |
| Channel.FirstInFirstOut | include/shared_state/channel.hpp:85-189 | the k-th value received is the k-th sent, the rest is buffered, and the buffer never exceeds the capacity |
| Channel.MovedOnceIffSuccessful | include/shared_state/channel.hpp:85-189 | a call reports success if and only if its value is in the history, and then exactly once |
| Channel.NobodyStranded | include/shared_state/channel.hpp:85-153 | a sleeping receiver implies a woken one for every buffered value; dually for senders and free slots while open |
| Channel.CloseWakesEverybody | include/shared_state/channel.hpp:59-64 | after close nobody sleeps unless a closer is still to notify |
| Channel.ReportedCloseIsFinal | include/shared_state/channel.hpp:137-153 | once a receive has reported the close, everything ever sent has been received and nothing is sent any more |
| Channel.NeverBothAsleep | include/shared_state/channel.hpp:85-153 | with room for anything, senders and receivers are never asleep together when nobody is on the way |
| Channel.BothAsleepOnlyWithoutCapacity | include/shared_state/channel.hpp:66-72 | both can be left asleep if and only if the capacity is 0 |
| Semaphore.SyncSemaphore.constructor | include/shared_state/semaphore.hpp:33 | the initial count |
| Semaphore.SyncSemaphore.TryAcquire | include/shared_state/semaphore.hpp:43-50 | takes a permit exactly if one is there |
| Semaphore.SyncSemaphore.Release | include/shared_state/semaphore.hpp:76-84 | adds n permits and notifies n times, not at all for n <= 0 |
| Semaphore.NoWaiterStranded | include/shared_state/semaphore.hpp:36-84 | while anybody sleeps, every available permit has a woken waiter coming for it |
| Semaphore.PermitsConserved | include/shared_state/semaphore.hpp:36-84 | available + acquired = initial + released |
| Semaphore.NeverOverdrawn | include/shared_state/semaphore.hpp:36-61 | never more acquired than there were and were released |
| Barrier.SyncBarrier.constructor | include/shared_state/barrier.hpp:70-73 | nobody has arrived, phase 0 |
| Barrier.SyncBarrier.CompletePhase | include/shared_state/barrier.hpp:60-64 | completion run once, count reset to those left, next phase |
| Barrier.SyncBarrier.Arrive | include/shared_state/barrier.hpp:76-86 | returns the phase of the arrival and completes it if the count reaches zero |
| Barrier.SyncBarrier.ArriveAndDrop | include/shared_state/barrier.hpp:110-119 | leaves this and all later phases, completing this one if it was the last |
| Barrier.StepKeepsInv | include/shared_state/barrier.hpp:76-119 | the invariant over positions, counts and phase survives every step |
| Barrier.CountIsExact | include/shared_state/barrier.hpp:60-119 | count = expected - non-dropping arrivals of this phase; expected = participants left; the completion function ran once per phase |
| Barrier.AdvancesExactlyWhenAllArrived | include/shared_state/barrier.hpp:76-119 | a step advances the phase, by one, if and only if it is the arrival or drop of the only pending participant |
| Barrier.AtMostOneRoundApart | include/shared_state/barrier.hpp:76-107 | no two active participants are more than one round apart |
| Barrier.WaitEndsAfterAllArrived | include/shared_state/barrier.hpp:89-92 | when a wait on a token ends, everyone left has arrived in the token's round |
| Barrier.NobodyPassesEarly | include/shared_state/barrier.hpp:89-107 | in every state, the last round a participant has passed is a round in which everyone left has arrived |
| Barrier.NobodyLeftAsleep | include/shared_state/barrier.hpp:80-92 | nobody sleeps after its phase is complete, and some active participant is never asleep |
| BatchTask.AddBatchTask | include/task_scheduler.hpp:198-234 | batches are the range cut in order without gap or overlap, with the exact sizes; division by zero exactly on the stated inputs |
| BatchTask.CutRange | include/task_scheduler.hpp:222-231 | the loop: full batches and a shorter rest |
| BatchTask.NeverMoreBatchesThanThreadsIff | include/task_scheduler.hpp:211-220 | for every number of items there are at most as many full batches as threads, if and only if an element fills a cache line |
| BatchTask.AnyOrderIsOnePass | include/task_scheduler.hpp:224-231 | an element-wise task over the batches, in any order or interleaved, equals one pass over the range |
| Scheduler.VictimsArePermutation | src/coro_scheduler.cpp:61-64 | (start + i) mod n names every worker exactly once in n rounds |
| Scheduler.StealScan | src/coro_scheduler.cpp:57-82 | a scan that finds nothing has probed every other worker exactly once; it stops at the first handle that can be resumed and drops those that cannot |
| Scheduler.StepKeepsInv | src/coro_scheduler.cpp:27-139 | external queue, deques, fates and resumptions stay consistent over submitters, workers and shutdown |
| Scheduler.ResumedAtMostOnce | src/coro_scheduler.cpp:95-139 | no submission is resumed twice, and one is in exactly one queue while it waits and in none otherwise |
| Scheduler.FatesAreFinal | src/coro_scheduler.cpp:27-82 | what one worker has taken, from whichever queue, or was rejected or resumed, nobody else gets |
| Scheduler.DequesStayEmpty | src/coro_scheduler.cpp:130-135 | in runs without a push to a worker's own deque, as the code has them, every deque is empty and no pop and no steal ever takes anything |
| Scheduler.PushedIsStolen | src/coro_scheduler.cpp:56-82 | a run with such a push in which another worker steals the submission |
| Scheduler.AtMostOneMoreEach | src/coro_scheduler.cpp:27-82 | once the flag is set, each worker resumes at most one more submission, and none if it has still to check the flag |
| Scheduler.QueuedCanBeResumedIff | src/coro_scheduler.cpp:27-54 | in the code as it is, some continuation resumes the submission at position k of the external queue if and only if its handle can be resumed and there is a worker, or after the flag more than k workers past their check and on their way to the queue |
| Scheduler.WaitingIsLeftBehind | src/coro_scheduler.cpp:195-212 | when the workers have left, nothing is in their hands, what is queued is never resumed, and what is on its way is rejected, run inline, queued or throws |
| Scheduler.QueuedAtShutdown | src/coro_scheduler.cpp:195-212 | a run after which a submission waits for ever |

## Left out

- Weak memory: all atomics are sequentially consistent; fences and memory orders are not modelled, nor are torn reads of an element that another thread is writing.
- 64-bit wrap-around of indices, ids, tokens and sizes; the deque's subtractions are proved not to wrap below zero.
- The io_uring service, allocators, cache line detection, thread creation and the order of global initialisation, which are input/output or platform code.
- The awaiters of the async semaphore, event, barrier, shared value and channel, timed channel awaiters and select, whose re-check after suspending does not support a no-lost-wakeup law.
- wake_one on the waiter list with reused nodes; the list model has add_waiter and wake_all with nodes that are not in the list.
- The lifetime of an awaiter object while its own suspend call is still running, and moving or assigning tasks.
- continuation_handoff::reset, and the detached_ flag of a task, which nothing sets.
- Addresses of the coroutine types themselves: a handle is a number, even and not zero where it is tagged.
- The locks inside coro_shared_state::set_value and get appear in CoroTask as steps that hold the mutex; the wait inside get is a step that is enabled once the result is there.
- WaiterList.List.AddWaiter: the node must not be in the list already, which the awaiters ensure by making a new one.
- Registering and unregistering a callback inside Sleep and BlockingAwaiter: the search for the id is one step there, as it is in the machine of Cancellation, where it happens under the mutex; the class there has it element by element.
- Timers added after the drain at shutdown, and barrier arrivals beyond the remaining count, which callers are asked to avoid.
- Barrier.SyncBarrier.Arrive: takes any n, but the interleaved participants arrive one at a time.
- Liveness: that a runnable thread eventually runs, that idle workers are woken (they wait without a condition), and that shutdown returns.
- Waiting itself in the task object: get and the destructor return after one look at what they wait for, because nobody can wake a single thread; the waiting callers are in CoroTask.
- Scheduler: in the machine one scan may steal from the same victim more than once, which Scheduler.StealScan excludes; what a resumed handle does, the choice of the least busy worker, and the clearing of the worker list at the end of shutdown are not modelled.
- The void specialisations, whose protocol is that of the general templates without a value.
- sync_event, shared values, when_all, when_any, yield, the version counter and result_holder, which would add only small members.
