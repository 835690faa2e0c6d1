# Thread pools, lock queues and schedulers: protocol proofs

Models of the concurrency protocols that this repository implements itself, with proofs:

- the queued thread pool of `posix/threadpool.cpp` (`PosixPool*.dfy`), and its base class
  without a queue (`PosixDirectPool*.dfy`);
- the lock server of `threads.cpp` (`LockQueue*.dfy`) and the AGENT++ 4.5 thread pool beside
  it (`AgentPool.dfy`);
- the producer/consumers ping-pong of `perf_condition_variable.cpp` (`PingPong.dfy`);
- the alarm scheduler of `alarm_cond.cpp` (`AlarmList.dfy`, `AlarmProtocol.dfy`);
- the owner-tracking monitor of `threadpool.cpp` (`Monitor.dfy`) and its try-lock pool
  (`TryLockPool*.dfy`);
- the fork-join quicksort of `parallel_quick_sort.cpp` (`ParallelSort.dfy`);
- the deadline arithmetic of `posix/threadpool.cpp` (`Deadlines.dfy`).

`dafny verify dfyconfig.toml` checks everything.

## How the models work

A protocol is a step system: a state, a predicate that says which steps are enabled, and a
function that says what they do. One step is one section that runs under a lock without
being able to wait, one wake-up, or, where the code reads or writes without a lock, that one
access. A theorem about "every run" quantifies over a sequence of steps, hence over every
interleaving, over any number of workers, clients, consumers or requests, and over every
choice the code leaves open: which call a client makes next, whom a signal wakes, when a
sleeper wakes for no reason, how a partition comes out. Condition variables are Mesa-style;
a signal that finds nobody is lost.

Where the code is a set of objects with loops, the same step functions specify classes with
methods (`PosixPoolObjects`, `TryLockPoolObjects`, `LockQueue.Server`, `AlarmList.Schedule`,
`AgentPool.QueuedThreadPool`, `Monitor.Synchronized`, `PingPong.SharedData`). In them a gap
in which other threads may run is a call of `Interfere`.

Tasks are distinct and not null, end, and do not call into the pool they run in. A pool is
destroyed when no other call is under way, and not used afterwards.

## What was found

- **A queued task can be left behind** (`posix/threadpool.cpp`). Workers announce that they are
  idle without the queue lock (lines 625 and 893), so a dispatcher that is still scanning does
  not hear them and then waits at line 882 for an announcement that has been made. The
  header promises that a queued task is processed later; `StrandingThreshold` says exactly when
  the code keeps that promise: always, if the callers let no more tasks be unfinished at a time
  than there are workers, and otherwise not. The workers can wake a sleeping dispatcher
  exactly if one of them is busy (`WokenIfAndOnlyIfSomebodyIsBusy`), so a task is left behind
  only by a dispatcher that fell asleep when none was (`RestingDispatcherFoundNobodyBusy`).
- **An execute of the queued pool blocks** (`posix/threadpool.cpp`), though the header says that
  it never does. The dispatcher keeps the queue lock while it waits for the lock of a manager
  whose worker runs a task. For callers that only execute, a running task can hold up an
  execute exactly if there is a worker and two tasks may be unfinished at a time
  (`BlockingThreshold`), and a queued task can wait for it beside an idle worker exactly if
  there are two workers and two such tasks (`WasteThreshold`).
- **terminate leaves the dispatcher running** (`posix/threadpool.cpp`): the header says that it
  blocks until all threads have stopped, but only the workers have; the dispatcher has been
  told and ends by itself, and the destructor joins it (`TerminateStopsEverything`).
- **The pool without a queue can let callers sleep for ever** (`posix/threadpool.cpp`): an
  announcement can be missed by `ThreadPool::execute` as well (`HangingThreshold`), and `terminate`,
  which notifies once, leaves others asleep in a pool that it has closed
  (`AbandoningThreshold`).
- **A task can be lost** (`threadpool.cpp`). An `execute` may put its task into the slot of a
  worker that has left its loop but whose thread still counts as alive; nobody runs or
  deletes it. On a pool with workers that is possible exactly if an `execute` may overlap with a
  `terminate`, or, against the documentation, come after one (`LossCondition`); for all other
  callers every task is deleted exactly once, also in pools that are terminated
  (`RestedPoolHasServed`).
- **terminate does not wait** (`threadpool.cpp`). The header says that it blocks until all threads
  have stopped, but it neither notifies nor joins a worker. When it returns, all managers are
  stopped and nobody starts a task any more (`NothingStartsAfterTerminate`); the threads that
  then end by themselves are exactly those that were not asleep in want of a task
  (`SleepersAreLeftAsleep`), which can be none (`TerminateCanStopNobody`).
- **The AGENT++ pool is first-in-first-out only under light load** (`threads.cpp`): a task that
  finds no manager goes to the end of the queue, so the order can be lost exactly when
  the unfinished tasks may outnumber the workers by two (`ReorderingThreshold`).
- **A resumed wait postpones an alarm** (`alarm_cond.cpp`): the duration of a timed wait is
  computed once (line 203) and used again when the wait is taken up after a spurious wake-up.
  In every run a deadline lies behind its alarm by exactly the time lost that way and the
  delay of the last wait (`LateByWhatWasLost`), so an alarm can be postponed exactly if there are
  spurious wake-ups or delays (`PostponementCondition`).
- **Deadlines**: a negative timeout can give `Synchronized::wait(long)` an invalid deadline, and
  `Synchronized::lock(unsigned long)` expires within a second for timeouts of 2^63 and more; the exact
  conditions are in `Deadlines`.
- **Documentation and code**: `is_busy` of `posix/threadpool.cpp` is commented as "ALL threads are
  executing", but returns true when any is (lines 722-743); the models follow the code.

## Model

| member | source | states |
|---|---|---|
| PosixPoolTheorems.ExactlyOnePlace | posix/threadpool.cpp:832-890 | in every reachable state accepted tasks, in order, are dispatched tasks, then drained ones, then the queue; each submitted task is in exactly one of: its caller's execute, queue, one slot, run and deleted, deleted unrun |
| PosixPoolTheorems.PeekedTaskIsPopped | posix/threadpool.cpp:876-883 | the task that the dispatcher peeked at is still the front when it pops, however long it slept in between, and a set_task after a positive is_idle succeeds |
| PosixPoolTheorems.IdleIsASnapshot | posix/threadpool.cpp:705-720 | a positive is_idle, though it locks one manager after the other, means that when it is given every accepted task has been run and deleted |
| PosixPoolCalls.IdleAnswerIsExact | posix/threadpool.cpp:705-720 | in a running pool with workers is_idle answers yes if and only if, when it answers, every accepted task has been run and deleted |
| PosixPoolCalls.RunningPoolRejectsNothing | posix/threadpool.cpp:854-865 | a pool that has not been stopped has accepted every task whose execute has returned |
| PosixPoolCalls.TerminateDivides | posix/threadpool.cpp:854-865 | a stopped pool was stopped by one step of its run: it has accepted exactly the tasks whose execute came before, and rejected exactly the later ones |
| PosixPoolCalls.FinishedTasksWereRun | posix/threadpool.cpp:609-639 | a task is finished or running if and only if a worker was running it at some moment of the run, and none that was discarded, drained or rejected ever was |
| PosixPoolCalls.TerminateStopsEverything | posix/threadpool.cpp:912-919 | when terminate returns the pool is stopped, every worker has ended, no slot holds a task, and the dispatcher has been told |
| PosixPoolReturns.EveryCallCompletes | posix/threadpool.cpp:854-919 | every call can be made in every reachable state, and whichever threads run then, the pool comes to rest with it completed: task accepted or rejected, is_idle answered, pool stopped, or destroyed |
| PosixPoolReturns.AnsweredClientReturns | posix/threadpool.cpp:895-901 | a client whose is_idle has been answered can make its next call, with queue and tasks as they were |
| PosixPoolTheorems.SleepersHaveAReason | posix/threadpool.cpp:867-890 | a worker asleep without a signal has no task, a dispatcher asleep without one has not been stopped, and in its empty-queue wait the queue is empty |
| PosixPoolWakeups.UnsignalledSleepMissesNothing | posix/threadpool.cpp:882-893 | while the dispatcher sleeps unsignalled, in either of its waits, no task is accepted, no shutdown begins, and every worker that has finished a task since is still about to announce it |
| PosixPoolWakeups.RestingDispatcherFoundNobodyBusy | posix/threadpool.cpp:867-893 | the dispatcher of a pool at rest fell asleep in a step at which no worker had a task or an announcement left |
| PosixPoolWakeups.WokenIfAndOnlyIfSomebodyIsBusy | posix/threadpool.cpp:625-630 | without new tasks, shutdown or spurious wake-ups, an unsignalled dispatcher can be woken if and only if some worker is busy |
| PosixPoolTheorems.DestructionIsComplete | posix/threadpool.cpp:807-829 | after the destructor every task ever passed to execute has been deleted exactly once; those accepted and not run are at most one per worker and a suffix of the acceptance order |
| PosixPoolCalls.DestructionDivides | posix/threadpool.cpp:807-865 | after the destructor the rejected tasks are exactly those whose execute came after the first terminate, and all others were accepted before it |
| PosixPoolTheorems.LoneWorkerKeepsOrder | posix/threadpool.cpp:609-639 | a pool of one worker has, at any time, run a prefix of the acceptance order |
| PosixPoolProgress.NoCircularWait | posix/threadpool.cpp:753-764 | nobody waits, through any chain of locks and joins, for itself: locks are taken in the order queue, pool, manager |
| PosixPoolProgress.ActsOrWaits | posix/threadpool.cpp:832-919 | a thread or client that is active can act if and only if it waits for nobody, so the waits considered are all there are |
| PosixPoolProgress.QuietMeansAtRest | posix/threadpool.cpp:609-639 | nothing in the pool can move if and only if every call has returned and workers and dispatcher sleep unsignalled or have left |
| PosixPoolProgress.RestedDestructorIsDone | posix/threadpool.cpp:820-829 | a destructor never gets stuck: where nothing moves any more, it has returned and every task is deleted |
| PosixPoolProgress.RestedPoolHasServed | posix/threadpool.cpp:867-890 | a running pool at rest has run every accepted task if and only if its dispatcher is not in the inner wait with a task in hand |
| PosixPoolTermination.PoolSettles | posix/threadpool.cpp:867-890 | from any reachable state, without new calls, every schedule takes a bounded number of steps, a spurious wake-up adding at most one round of the dispatcher |
| PosixPoolTermination.ShutdownEnds | posix/threadpool.cpp:912-919 | once destruction has begun the remaining steps are bounded, and when none is left every task has been deleted exactly once |
| PosixPoolStranding.StrandingThreshold | posix/threadpool.cpp:877-883 | a pool can come to rest with a queued task if and only if its callers let more tasks be unfinished at a time than it has workers |
| PosixPoolObjects.TaskManager.SetTask | posix/threadpool.cpp:647-664 | fills the slot and wakes the worker if and only if the slot was empty, and changes nothing otherwise |
| PosixPoolObjects.TaskManager.WorkerAct | posix/threadpool.cpp:609-639 | one step of the worker loop follows the specified step, and the task it deletes is the one that left the slot |
| PosixPoolObjects.QueuedThreadPool.Assign | posix/threadpool.cpp:832-852 | whatever the workers do meanwhile, the task goes to one manager or to none, nothing else enters a slot, and a manager idle at the start of the scan is found |
| PosixPoolObjects.QueuedThreadPool.Execute | posix/threadpool.cpp:854-865 | does what the step of the protocol does: accepts at the end of the queue if and only if the pool runs, and rejects otherwise |
| PosixPoolObjects.QueuedThreadPool.IsIdle | posix/threadpool.cpp:895-901 | a positive answer holds of all managers at its return, and of the dispatcher's thread and the queue; it is given if these are in order and no manager had a task or was stopped at the start |
| PosixPoolObjects.QueuedThreadPool.StopAll | posix/threadpool.cpp:757-760 | every manager is stopped, and no task enters or is exchanged |
| PosixPoolObjects.QueuedThreadPool.TerminateManagers | posix/threadpool.cpp:745-764 | stopping, retiring and joining one manager after the other leaves no manager, no worker that has not ended, and no task in a slot |
| PosixPoolObjects.QueuedThreadPool.EmptyQueue | posix/threadpool.cpp:807-818 | deletes the queued tasks from front to back and leaves the queue empty |
| PosixPoolBlocking.BlockingThreshold | posix/threadpool.cpp:832-882 | for callers that only execute, an execute can be held up by a running task if and only if there is a worker and two tasks may be unfinished at a time |
| PosixPoolBlocking.WasteThreshold | posix/threadpool.cpp:832-882 | for the same callers, a queued task can wait for another to end while a worker is idle if and only if there are two workers and two tasks may be unfinished at a time |
| PosixDirectPoolHanging.HangingThreshold | posix/threadpool.cpp:668-701 | an execute can sleep for ever in a pool whose workers, if it still has any, are all idle, if and only if the pool was made with workers and the callers may let the tasks in its care outnumber them; also among calls of terminate |
| PosixDirectPoolHanging.AbandoningThreshold | posix/threadpool.cpp:753-764 | terminate can leave an execute asleep for ever in the closed pool if and only if the pool was made with workers and the callers may let the tasks in its care outnumber them by two |
| PosixDirectPoolHanging.HopefulSleeperIsWoken | posix/threadpool.cpp:668-701 | an execute that falls asleep while a slot is taken, or another execute is awake, does not sleep unsignalled in an open pool at rest |
| PosixDirectPoolHanging.ExecuteFillsOneSlot | posix/threadpool.cpp:668-698 | execute returns only in the step that fills one free slot, or from a pool without managers |
| LockQueueProtocol.MutualExclusion | threads.cpp:1014-1061 | the locked targets are exactly those of requests granted and not yet released, one request for each |
| LockQueueProtocol.NeverOvertaken | threads.cpp:1028-1061 | a request is granted only after every earlier request for its target has been answered, and those that wait, granted |
| LockQueueProtocol.NobodyWaitsForAFreeTarget | threads.cpp:1026-1061 | a pass answers every trylock and keeps in order only requests whose target is held |
| LockQueueProtocol.ReleaseServesTheFirst | threads.cpp:1015-1043 | the first in line for a free or just released target holds it after the next pass |
| LockQueueProtocol.NobodyIsLeftUnanswered | threads.cpp:1014 | run returns only when every request ever entered has been answered and no release is pending |
| LockQueueProtocol.TryRequestsAreAnsweredAtOnce | threads.cpp:1044-1057 | a trylock is answered by the first pass after its arrival |
| LockQueueProtocol.EveryRequestCanBeAnswered | threads.cpp:986-1079 | from every reachable state, clients that release what they hold and the destructor can bring run to return with every request answered |
| LockQueueProtocol.ScanWorks | threads.cpp:1026-1061 | what one rotation of a list in order of arrival answers, grants and leaves: each request is answered or left, in the original order, and left only if its target is locked |
| LockQueue.Server.OfferPending | threads.cpp:1026-1061 | the in-place rotation performs the specified scan, and its counter ends as the length of the list |
| LockQueue.Server.UnlockReleased | threads.cpp:1015-1025 | unlocks exactly the targets of the pending releases and empties that list |
| AgentPool.ExactlyOnePlace | threads.cpp:902-951 | each submitted task is at any time in exactly one of: queue, the hand of the assigner, one slot, finished, although a failed assignment puts it back |
| AgentPool.PlacementsEmptyTheQueue | threads.cpp:940-951 | over any continuation without submissions, the tasks queued or in hand become fewer by exactly the number of successful assignments, and are gone if and only if as many have succeeded as there were |
| AgentPool.RoundEnds | threads.cpp:902-951 | a round either gives the front to one free manager and shortens the queue by one, or rotates the queue; a rotation keeps an ordered queue ordered if and only if it held one task |
| AgentPool.RoundPlacesTheFront | threads.cpp:940-951 | a round begun while some manager is free takes the front in hand and ends by placing it, whatever the workers do |
| AgentPool.TheLineCanBeEmptied | threads.cpp:902-951 | from every reachable state of a pool with a worker, rounds and workers alone can empty the queue |
| AgentPool.ReorderingThreshold | threads.cpp:902-938 | the queue can get out of submission order if and only if the callers may let the unfinished tasks outnumber the workers by two |
| AgentPool.QueuedThreadPool.Assign | threads.cpp:902-925 | the task goes to one free manager or to the end of the queue; a manager free at the start is found |
| AgentPool.QueuedThreadPool.Round | threads.cpp:945-948 | the loop body begins as the step of the protocol does, then places the front or re-queues it, and places it if some manager is free |
| AgentPool.QueuedThreadPool.Execute | threads.cpp:927-938 | a task goes to a free manager if the queue is empty and there is one, and otherwise to the end of the queue |
| PingPong.NobodyRunsAhead | perf_condition_variable.cpp:59-97 | the semaphore counts the consumers whose counter equals the shared one, every counter is that one or one less, and the producer's first unlocked read saw all consumers |
| PingPong.RoundsAreTakenInStep | perf_condition_variable.cpp:66-74 | a round starts only when every consumer has taken the last one, and a consumer takes exactly the next one |
| PingPong.NoWakeUpIsLost | perf_condition_variable.cpp:64-96 | whoever sleeps unsignalled with a true guard is about to be notified by a thread that has left its section |
| PingPong.NobodyIsStuck | perf_condition_variable.cpp:59-97 | nobody can move if and only if the producer and every consumer have finished all rounds |
| PingPong.EveryRunCompletes | perf_condition_variable.cpp:59-97 | for any number of consumers and rounds the steps of a run are bounded, spurious wake-ups adding one each, and a run that cannot go on is complete |
| AlarmList.InsertIsSortedAndStable | alarm_cond.cpp:108-130 | an insertion keeps the list sorted, adds one element, and puts it behind those due at the same time |
| AlarmList.Schedule.AlarmInsert | alarm_cond.cpp:96-162 | the pointer surgery yields the specified list with all other nodes in place, longest is its last node, and the result is the latest time of all; the thread is notified if the new alarm is the first due |
| AlarmList.Schedule.Last | alarm_cond.cpp:133-147 | the walk of the debugging code ends at the last node, which the assertion compares with longest |
| AlarmProtocol.ConditionIsExact | alarm_cond.cpp:212-222 | while an alarm is in hand, current_alarm differs from its time if and only if a strictly earlier alarm is listed |
| AlarmProtocol.NoNewsIsMissed | alarm_cond.cpp:188-222 | the thread sleeps unsignalled only if enabled and, in the idle wait, the list is empty, in the timed wait, nothing listed is earlier |
| AlarmProtocol.PreemptionTakesAnEarlierAlarm | alarm_cond.cpp:228-230 | a preempted alarm goes back to the list and the next one taken or handled is strictly earlier |
| AlarmProtocol.EveryAlarmIsAccountedFor | alarm_cond.cpp:181-242 | each alarm inserted is, as often as inserted, in the list, in hand, handled or abandoned; at most one is abandoned, at shutdown, and none is handled before its time |
| AlarmProtocol.EveryAlarmCanBeHandled | alarm_cond.cpp:181-242 | from every reachable state of an enabled thread, the passing of time and its own steps can bring all alarms inserted so far to be handled |
| AlarmProtocol.ShutdownIsHeeded | alarm_cond.cpp:266-273 | after a shutdown the thread takes at most two steps more, and can always take the next until it has ended |
| AlarmProtocol.LateByWhatWasLost | alarm_cond.cpp:200-222 | in every run a timed wait is begun for an alarm not yet due, its deadline is the alarm's time plus the time lost before the wait was last begun plus the delay of that wait, and each alarm handled was late by what its waits had lost, or more |
| AlarmProtocol.PostponementCondition | alarm_cond.cpp:203-222 | a timed wait can end at another time than its alarm's if and only if there may be spurious wake-ups or delays |
| AlarmProtocol.BriskRunsHandleOnTime | alarm_cond.cpp:181-242 | without them, and if nothing but waiting takes time, every alarm is handled exactly at its time, across any preemptions |
| AlarmProtocol.SpuriousWakeUpPostpones | alarm_cond.cpp:203-222 | from any time on and for any alarm, one spurious wake-up after d makes the wait end d too late |
| Monitor.OwnershipIsNeverForged | threadpool.cpp:181-250 | tid_ names only the owner of the mutex, only the owner unlocks it or gives it up in a wait, and nobody waits for a mutex of their own |
| Monitor.AnswersAreTrue | threadpool.cpp:181-250 | unlock returns true, trylock OWNED and lock false exactly to those who owned the lock at the call, and answers keep describing the caller's ownership |
| Monitor.RefusalHasAReason | threadpool.cpp:203-250 | trylock answers BUSY, and a timed lock gives up, only in a step in which another thread owns the mutex |
| Monitor.AloneItSucceeds | threadpool.cpp:111-250 | from every reachable state, a call on a mutex that is free or the caller's own, left alone, succeeds with the answer its caller expects; a wait gives the mutex back |
| Monitor.WaiterComesBack | threadpool.hpp:303-325 | a waiter that wakes to a free mutex owns it again, and goes on or sleeps once more as its condition says |
| Monitor.NoDeadlock | threadpool.hpp:303-325 | who is held up waits for a mutex owned by another thread, which is not held up |
| Monitor.Synchronized.Unlock | threadpool.cpp:221-232 | with other threads coming in between all accesses, returns true if and only if the caller owned the lock, which it does not afterwards |
| Monitor.Synchronized.TryLock | threadpool.cpp:234-250 | OWNED if and only if the caller owned the lock; afterwards it owns the lock unless BUSY, which is answered only if another thread has had the mutex during the call |
| Monitor.Synchronized.TimedLock | threadpool.cpp:203-219 | true if and only if the caller owns the lock afterwards; gives up only on a mutex that another thread has had during the call |
| TryLockPoolTheorems.ExactlyOnePlace | threadpool.cpp:476-570 | each submitted task is in exactly one of: its caller's execute, one slot, run and deleted, deleted unrun |
| TryLockPoolTheorems.ExecuteFillsOneSlot | threadpool.cpp:515-570 | execute returns in the step that puts its task into one slot, which was empty, without leaving its worker asleep; set_task after is_idle fails only on a held lock |
| TryLockPoolTheorems.IdleIsASnapshot | threadpool.cpp:581-592 | a positive is_idle means that every placed task has been deleted, though no manager is locked |
| TryLockPoolAnswers.IdleAnswerIsExact | threadpool.cpp:581-592 | while no manager has been stopped, is_idle answers yes if and only if, when it answers, every placed task has been run and deleted |
| TryLockPoolAnswers.FinishedTasksWereRun | threadpool.cpp:476-513 | a task is finished or running if and only if a worker was running it at some moment of the run, and no discarded task ever was |
| TryLockPoolAnswers.CallsAchieve | threadpool.cpp:463-619 | every call can be made, and where the pool has come to rest afterwards it has achieved its purpose: task placed, is_idle answered, all managers stopped, or the pool destroyed |
| TryLockPoolTheorems.NoCircularWait | threadpool.cpp:463-578 | nobody waits for itself, and whoever holds the pool lock can always go on: workers ask for it holding their own lock, and its holders only try those |
| TryLockPoolTheorems.ActsOrWaits | threadpool.cpp:463-619 | a worker or client that is active can act if and only if it waits for nobody |
| TryLockPoolTheorems.QuietMeansAtRest | threadpool.cpp:476-619 | nothing can move if and only if all calls have returned and all workers sleep unsignalled or have left; a task still placed then is in the slot of one that has left |
| TryLockPoolLiveness.ExecuteCanReturn | threadpool.cpp:550-570 | from every reachable state with a worker in its loop, also amid terminate, each execute under way has a continuation in which it returns |
| TryLockPoolTermination.RestedPoolHasServed | threadpool.cpp:476-619 | if no execute overlaps with or follows terminate, a pool at rest has deleted every task exactly once, and run every one unless it has been terminated or destroyed |
| TryLockPoolTermination.LossCondition | threadpool.cpp:550-619 | a task can end in the slot of a worker that has ended if and only if the pool has workers and its callers let an execute overlap with a terminate or come after one |
| TryLockPoolTermination.NothingStartsAfterTerminate | threadpool.cpp:609-619 | when terminate returns every manager is stopped, and in no continuation does a worker start a task |
| TryLockPoolTermination.SleepersAreLeftAsleep | threadpool.hpp:658-664 | when an orderly terminated pool has come to rest, a thread has ended if and only if its worker was not asleep in want of a task when terminate returned |
| TryLockPoolTermination.TerminateCanStopNobody | threadpool.hpp:658-664 | terminate can return with every thread alive and asleep, for any number of workers |
| TryLockPoolObjects.ThreadPool.SetTask | threadpool.cpp:515-546 | with workers coming in between the unlocked look and the try of the lock: a success fills a slot that was empty and free and wakes its worker; a failure leaves all slots to their workers and happens only on a slot or lock that is taken |
| TryLockPoolObjects.ThreadPool.TryAll | threadpool.cpp:554-566 | one scan gives the task to one manager or to none, and finds a running manager whose slot and lock were free at its start |
| TryLockPoolObjects.ThreadPool.IsPoolIdle | threadpool.cpp:581-592 | a positive answer holds of all managers at its return, and is given if none had a task or was stopped at the start |
| ParallelSort.DoSort | parallel_quick_sort.cpp:31-63 | for any strict order and any legal partition the result is a sorted permutation of the chunk |
| ParallelSort.EveryScheduleSorts | parallel_quick_sort.cpp:31-63 | whatever the pool threads and the helping waiters run when, a result is a sorted permutation of the input |
| ParallelSort.NoDeadlock | parallel_quick_sort.cpp:56-58 | until there is a result some thread can go on, although waiters bury halves under others on their stacks, and even without pool threads |
| ParallelSort.ThreadsAreIndependent | parallel_quick_sort.cpp:31-63 | the last activation on any stack can go on at once unless it waits for a half that another thread runs, with none left to help with |
| ParallelSort.EveryScheduleEnds | parallel_quick_sort.cpp:31-63 | no schedule takes more than 5n + 1 steps for n elements |
| ParallelSort.NothingIsLeftBehind | parallel_quick_sort.cpp:66-74 | when there is a result every activation has ended and every future is ready, so the sorter can be destroyed |
| Deadlines.WaitDeadline | posix/threadpool.cpp:198-205 | the deadline lies in (now + timeout - 1 ms, now + timeout] for every timeout, and is normalised if and only if the milliseconds of the clock make up for a negative remainder, so for all non-negative timeouts |
| Deadlines.LockDeadline | posix/threadpool.cpp:299-306 | always normalised, and in that interval if and only if the timeout fits time_t |
| Deadlines.NSleep | posix/threadpool.cpp:536-562 | the interval is exactly what was asked; however often interrupted, the thread sleeps that long, or not at all if the interval is invalid |
| Deadlines.Sleep | posix/threadpool.cpp:527-534 | sleeps exactly millis ms and nanos ns for non-negative arguments, and for others exactly if the interval is valid |

## Left out

- PosixPoolStranding.StrandingThreshold: a task left behind is rescued by the next execute, announcement or spurious wake-up; how likely that is, is not modelled.
- PosixDirectPoolHanging.HangingThreshold: tasks are anonymous in this model, and the stopping and deleting of managers by `terminate`, which nobody can observe because of the pool lock, is one step; the destructor of the pool is `terminate`.
- AgentPool.ExactlyOnePlace: the pool before `terminate` and not in one-time-execution mode; a stopped worker still reports idle there, so the code does not keep tasks.
- AgentPool.PlacementsEmptyTheQueue: the timed wait between two rounds is a moment at which any step may happen, not a duration.
- Monitor.NoDeadlock: `lock(timeout)` is called by threads that do not own the lock; the destructor's retry loop and the flag `signal` are not modelled, as a later waiter resets that flag and the code guarantees nothing to several waiters.
- TryLockPool: the pool's condition variable is not modelled, because every wait of `execute` is bounded and may end at any moment; `is_busy` is left out.
- TryLockPoolObjects.ThreadPool.TryAll: the endless outer loop of `execute` is in the step system only.
- ParallelSort.EveryScheduleSorts: futures, the executor's queue and closing the pool are small abstractions; queued halves may be run in any order.
- Deadlines.WaitDeadline: seconds are unbounded, so an overflow of `time_t` by the sum of clock and timeout is not modelled.
- PingPong: counters are unbounded; the code's unsigned ones are bounded by the number of rounds and of consumers (`NobodyRunsAhead`).
- LockQueue: requests are values numbered by arrival, not objects on callers' stacks; targets are locked through the queue only, so `trylock` answers BUSY where a mutex might say OWNED.
- AlarmProtocol: alarm times are positive, as an alarm due at the epoch would look like none; reading commands and the `--wait` option are input and output.
- Logging, thread names and priorities, stack sizes, failing system calls and use after destruction.
- `QueuedThreadPool` of `threadpool.cpp`, which forwards to an executor of Boost, and the demos that only use Boost or Asio.
- Stopwatches, reporters and collectors, which would add short members only.
