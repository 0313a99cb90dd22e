# A verified model of libfev's concurrency protocols

libfev is a multithreaded fiber runtime for C. This project models the protocols it is built from and
proves, in Dafny 4.11, what they are for: that memory is reclaimed only after a grace period, that a
timed wait never leaves a pointer into a dead stack frame, that a mutex has one owner and a semaphore
loses no permit, that workers do not sleep while a fiber is runnable, that the lock-free queues and
stacks are queues and stacks, and that the timer heap is one.

`dafny verify dfyconfig.toml` checks everything.

## How the protocols are modelled

A concurrent protocol is an interleaving machine: shared state, one program counter with its locals per
thread, fiber or worker, and a `Next` predicate with one step per shared access. There may be any number
of threads, fibers, waits, queues and so on. Each machine has an inductive invariant `Inv`, a lemma
`NextInv` that every step keeps it, and theorems about every state and every step of every run
(`IsRun`). Fields marked "history" record what happened; no step depends on them, except that a caller
may only hand over what it owns. Memory is sequentially consistent, and a weak compare-and-swap may fail
for no reason. The timer heap, which is sequential code on an array, is a class with loops.

| files | part of libfev |
|---|---|
| Qsbr.dfy | reclamation with two lists and 32-bit epochs |
| TimedWait.dfy, TimedWaitInvariant.dfy, TimedWaitTheorems.dfy, WakeOrder.dfy | waiter handshake, waiters queue, timers and poller as one machine; condition variable |
| QueueClient.dfy, Mutex.dfy, Semaphore.dfy | mutex and semaphore on top of that machine |
| ILock.dfy, FutexMutex.dfy | the internal lock of fibers and the Linux thread mutex |
| Scheduler.dfy, SchedulerFibers.dfy, SchedulerSleep.dfy, SleepRun.dfy, BoundedScheduler.dfy | work-stealing schedulers |
| MpmcQueue.dfy, MpmcOverflow.dfy, SpmcQueue.dfy, NodePool.dfy | lock-free queues, tagged stack and node pool |
| TimerHeap.dfy, Time.dfy | binary heap of timers, points in time |
| Common.dfy | words, counts, sums and ring positions |

The machines rely on each other as the code does. In TimedWait the internal lock, the bucket lock and the
min lock are taken as mutual exclusion (ILock and FutexMutex prove that of the first and of the locks
below it), and a timer heap is known by its contents and its root (TimerHeap proves what the operations do
to these). Taking a lock is one step with the first access under it, and releasing it is one step with the
last; setting `bucket->min` under the min lock is one step. In BoundedScheduler the operations of a run
queue take effect in one step (SpmcQueue and MpmcQueue prove that they do).

Assumptions: more than one thread uses QSBR; `FEV_TIMERS_ADD_CAN_FAIL` is 0; the poller is epoll or
kqueue, its timer may fire at any time and its wait may return at any time; each wait uses the fresh waiter
that `fev_waiters_queue_wait()` makes; the clock and the random numbers of the workers are parameters;
there are fewer than 2^32 workers and fibers.

## Model

| member | source | states |
|---|---|---|
| Qsbr.NextInv | src/fev_qsbr.h:67-133 | every shared access of `fev_qsbr_free()` and `fev_qsbr_quiescent()`, by any of n > 1 threads, keeps the invariant that ties lists, counter, epochs and grace periods together |
| Qsbr.GracePeriod | src/fev_qsbr.h:67-133 | when `fev_qsbr_quiescent()` returns an entry, by either route, every thread but the one that freed it has been inside a quiescent call since the entry was handed over |
| Qsbr.ReturnedOnce | src/fev_qsbr.h:95-133 | between two returns of an entry it was freed again |
| Qsbr.RunIsFaithful | src/fev_qsbr.h:67-133 | the recorded times of hand-overs and quiescent steps are those of the run, in every run |
| Qsbr.OnePlace | src/fev_qsbr.h:78-128 | a freed entry is on to_free1, on to_free2, on the list about to be returned or in one thread's hands: exactly one of these, once, following the `next` pointers |
| Qsbr.FiniCollects | src/fev_qsbr.h:58-65 | with no call in progress the two lists hold exactly the entries freed and not returned |
| Qsbr.RemainingCounts | src/fev_qsbr.h:29-30 | while a grace period runs, num_remaining is the number of threads whose 32-bit local epoch differs from the global one |
| Qsbr.AssertionsHold | src/fev_qsbr.h:103-122 | the assertions hold, and a local epoch is the global one or one behind, so that the 32-bit comparison is exact despite wrap-around |
| TimedWaitInvariant.NextInv | src/fev_waiters_queue_impl.h:47-201 | every step of fibers, post routines, queue wakers, expiring fibers and timeout handlers keeps the invariant of the blocking machine and undoes no reason, wake-up or registration |
| TimedWaitTheorems.LifetimeSafety | src/fev_timers.c:144-219 | in every run, whoever touches a node, waiter or timer does so before its fiber has returned from `fev_waiters_queue_wait()`, on all exits |
| TimedWaitTheorems.TargetAlive | src/fev_waiter_impl.h:120-156 | the frame that a call of `fev_waiter_wake()` works on stays alive until the call and its caller are done with it |
| TimedWaitTheorems.ResumesSuspended | src/fev_waiter_impl.h:26-72 | a fiber is made runnable only after its context was saved and with a reason set, and not twice |
| TimedWaitTheorems.ResumedOnce | src/fev_waiter_impl.h:26-156 | in every run a wait's fiber is made runnable at most once |
| TimedWaitTheorems.WakeIsOwed | src/fev_waiter_impl.h:26-156 | once a reason is set and while the fiber is suspended, someone has yet to make it runnable: the agent that the wait names, or, while do_wake is still 1, the post routine or the call that set the reason, which compete for it |
| TimedWaitTheorems.ReturnedReason | src/fev_waiter_impl.h:105-118 | `fev_waiter_wait()` returns the reason that won, never none; READY only with the node dequeued, TIMED_OUT_NO_CHECK only with the timer expired; an untimed wait only READY |
| TimedWaitTheorems.NoStrandedDeadline | src/fev_timers.c:42-219 | with a bucket's lock free and the bucket not empty, bucket->min is a timer of least deadline, and the poller is armed for it or its event is in flight, or its waiter has a reason and its fiber has yet to visit the bucket |
| WakeOrder.WakeSelects | src/fev_waiters_queue_impl.h:128-201 | a wake went through a prefix of the nodes queued when it got the lock, woke exactly those without another reason, at most its limit, and stopped only at the limit or at the end |
| WakeOrder.RegisteredBeforeWake | src/fev_waiters_queue_impl.h:77-90 | a wake that gets the lock finds every wait whose recheck has run, but those dequeued by another wake or unlinked after a timeout |
| WakeOrder.NoLostNotification | src/fev_cond.c:49-64 | for an untimed condition wait, any notify that gets the queue's lock after the fiber entered its recheck, where the mutex is released, finds its node, unless an earlier notify chose it |
| QueueClient.ForeignQuiet | src/fev_waiters_queue_impl.h:47-201 | steps of others change nothing that the owner of a queue relies on; a node appears only behind a recheck that said to wait |
| Mutex.NextInv | src/fev_mutex.c:49-170 | try-lock, the two halves of the recheck, both unlock paths, handoff and callback, and all steps around them, keep the mutex invariant |
| Mutex.NextRefines | src/fev_mutex.c:79-170 | the mutex does only what the blocking machine allows |
| Mutex.OneOwner | src/fev_mutex.c:49-170 | of all try-locks that succeeded, waits that were handed the mutex or took it, and unlocks that have yet to give it on, each known by its own record, at most one has the mutex; the state is not 0 exactly if one has it |
| Mutex.OwnerKeeps | src/fev_mutex.c:49-170 | who has the mutex keeps it until its own unlock, or an unlock until its handoff or callback, and meanwhile nobody else has it |
| Mutex.TryLockExact | src/fev_mutex.c:49-54 | a try-lock succeeds exactly if nobody has the mutex |
| Mutex.NoWaiterForgotten | src/fev_mutex.c:56-77 | state 0 or 1 means that no node is queued, at every moment, even when timed waiters leave state 2 behind |
| Mutex.ReturnsOwner | src/fev_mutex.c:79-135 | a lock call that returned owns the mutex exactly if it reports success, until it unlocks; an untimed one always does |
| Mutex.CallbackAssertion | src/fev_mutex.c:137-153 | at most one waiter was woken, and the state becomes 0, 1 or 2 as the outcome requires |
| Mutex.LifetimeSafety | src/fev_mutex.c:79-170 | in every run of a mutex, whoever touches the node, waiter or timer of a wait does so before its fiber has returned |
| Semaphore.NextInv | src/fev_sem.c:60-113 | recheck, post, grant and callback, and all steps around them, keep the semaphore invariant |
| Semaphore.NextRefines | src/fev_sem.c:60-113 | the semaphore does only what the blocking machine allows |
| Semaphore.Conservation | src/fev_sem.c:60-113 | initial value plus posts equals value plus permits given (returned or not) plus posts that have yet to decide; the value does not become negative; a positive value means an empty queue |
| Semaphore.Settled | src/fev_sem.c:98-113 | with no post in progress, initial value plus posts equals value plus permits |
| Semaphore.ReturnsPermit | src/fev_sem.c:72-96 | a wait that returned has a permit exactly if it reports success; an untimed one always has |
| Semaphore.CallbackAssertion | src/fev_sem.c:98-108 | at most one waiter was woken; if none was, the queue is empty |
| Semaphore.LifetimeSafety | src/fev_sem.c:72-113 | in every run of a semaphore, whoever touches the node, waiter or timer of a wait does so before its fiber has returned |
| ILock.NextInv | src/fev_ilock.c:24-118 | all steps of locking, waiting, unlocking and the post routine keep the invariant |
| ILock.OneOwner | src/fev_ilock_impl.h:61-89 | at most one fiber has the lock, running or given it while suspended, and then the state is not 0 |
| ILock.FreeWhenZero | src/fev_ilock_impl.h:61-89 | if no fiber has the lock the state is 0 |
| ILock.TwoMeansWaiters | src/fev_ilock.c:41-118 | with the inner lock free, state 2 exactly if fibers wait |
| ILock.HandedInOrder | src/fev_ilock.c:68-117 | the lock is handed over in the order in which fibers were appended |
| ILock.AssertionsHold | src/fev_ilock.c:79-104 | the asserted states hold, and the fiber that is dequeued has been switched out and its post routine is over |
| ILock.WokenAsOwner | src/fev_ilock.c:86-118 | a fiber is woken as the owner, with its switch finished, by one fiber only |
| FutexMutex.NextInv | src/fev_thr_mutex_linux.c:59-73 | all steps of both paths keep the invariant, with futex sleeps that may end at any time |
| FutexMutex.MutualExclusion | src/fev_thr_mutex_linux.h:41-62 | at most one thread owns the mutex, and then the state is not 0 |
| FutexMutex.FreeWhenZero | src/fev_thr_mutex_linux.h:57-62 | if no thread owns the mutex the state is 0 |
| FutexMutex.NoStrandedSleeper | src/fev_thr_mutex_linux.c:59-73 | while a thread sleeps, the state is 2 and there is an owner, or an unlock has yet to wake a thread, or an awake thread is about to store 2 |
| Scheduler.WakeWorkersSlow | src/fev_sched_common.c:26-48 | the number of wake-ups is the smaller of waiting workers and new fibers, one of them through the poller if it is waited on |
| SchedulerFibers.NextInv | src/fev_sched_steal_locking.c:34-151 | every step of push, pop, steal and install keeps places, lists, sizes and locks consistent |
| SchedulerFibers.OnePlace | src/fev_sched_steal_locking.c:34-151 | in every run a fiber is in at most one run queue, stolen batch or processor, once, and where its history says |
| SchedulerFibers.NoneLost | src/fev_sched_steal_locking.c:34-151 | a runnable fiber stops being runnable only by switching away from its worker |
| SchedulerFibers.SizeIsLength | src/fev_sched_steal_locking_impl.h:40-72 | when a run queue's lock is free its size is the length of its list |
| SchedulerFibers.AssertionsHold | src/fev_sched_steal_locking.c:78-96 | the assertions of the loop and of stealing hold; in particular the thief's own queue is empty when it installs its batch |
| SchedulerSleep.CounterIsRunnable | src/fev_sched_impl.h:37-67 | num_run_fibers is, modulo 2^32, the number of runnable fibers corrected by pushes not yet counted and switches counted early or late; it is exact when there are none |
| SchedulerSleep.NextControl | src/fev_sched_steal_locking.c:153-206 | every step keeps num_waiting equal to the workers between announcing and waking, one holder of the poller's role, and: with every worker down the counter is 0 or the last has yet to look |
| SchedulerSleep.NoSleepWithWork | src/fev_sched_steal_locking.c:153-206 | when all workers are past their second look, no fiber is runnable, all run queues are empty, and exactly one worker waits in the poller |
| SleepRun.SleepIsReachable | src/fev_sched_steal_locking.c:107-205 | with any number of workers there is a run in which a fiber runs and blocks and all workers then go to sleep, so that the theorem before is not an empty one |
| SleepRun.WorkerSleeps | src/fev_sched_steal_locking.c:140-205 | in every reachable state in which the counter is 0 and every run queue is empty with its lock free, a worker that comes to look for work with backoff 0 can go to sleep, however many others sleep |
| BoundedScheduler.NextInv | src/fev_sched_steal_bounded_spmc.c:42-171 | every step of push, overflow, move from fallback, pop and steal keeps places, lists and lengths consistent, for both kinds of run queue |
| BoundedScheduler.OnePlace | src/fev_sched_steal_bounded_spmc.c:42-131 | a fiber is in at most one of the run queues, the fallback queue and the workers' hands, once |
| BoundedScheduler.NoneLost | src/fev_sched_steal_bounded_mpmc.c:42-127 | no push, overflow, move or steal loses a fiber |
| BoundedScheduler.FallbackLen | src/fev_sched_steal_bounded_spmc.c:89-131 | with the lock free, fallback_queue_len is the length of the fallback queue |
| BoundedScheduler.AssertionsHold | src/fev_sched_steal_bounded_spmc.c:72-101 | at most what was counted is moved, a single-producer thief pushes all it stole, and run queues keep to their capacity |
| MpmcQueue.NextInv | src/fev_bounded_mpmc_queue.h:93-155 | every access of push and pop by any number of threads keeps the state of the cells |
| MpmcQueue.RefinesFifo | src/fev_bounded_mpmc_queue.h:93-155 | push appends at the CAS of the tail, pop removes the first element at the CAS of the head, nothing else changes the queue, and it never exceeds the capacity |
| MpmcQueue.PopYieldsFirst | src/fev_bounded_mpmc_queue.h:95-124 | a pop returns the element that was first when its CAS succeeded |
| MpmcQueue.PopReturnsItem | src/fev_bounded_mpmc_queue.h:120-123 | the pop of position k reads what was pushed at position k |
| MpmcQueue.ItemsStay | src/fev_bounded_mpmc_queue.h:126-155 | what was pushed at a position does not change |
| MpmcQueue.CellsExclusive | src/fev_bounded_mpmc_queue.h:120-153 | a cell's data is touched only by the thread that claimed it |
| MpmcQueue.PushFails | src/fev_bounded_mpmc_queue.h:138-147 | push returns false only if the queue is full or a pop is still busy with the cell |
| MpmcQueue.PopFails | src/fev_bounded_mpmc_queue.h:106-115 | pop returns false only if the queue is empty or a push is still busy with the cell |
| MpmcQueue.Run32 | src/fev_bounded_mpmc_queue.h:93-155 | a run of the code with its 32-bit counters, differences and masks, in which no thread sleeps through 2^31 operations less the capacity between a load and its test, is a run of the model |
| MpmcQueue.Push32 | src/fev_bounded_mpmc_queue.h:133-154 | in every state of the invariant, a push that does not lag that far takes the same step in 32 bits as with exact positions, and conversely |
| MpmcQueue.Pop32 | src/fev_bounded_mpmc_queue.h:101-123 | the same for a pop |
| MpmcQueue.StalePush | src/fev_bounded_mpmc_queue.h:141-144 | beyond the bound: the 32-bit CAS of a push that lags behind by a multiple of 2^32 keeps the invariant exactly if the cell of the tail is free, and the capacity exactly if the queue is not full |
| MpmcQueue.StalePop | src/fev_bounded_mpmc_queue.h:109-113 | the same for a pop: it keeps the invariant exactly if the cell of the head is full, and the head behind the tail exactly if the queue is not empty |
| MpmcOverflow.OverflowIsReachable | src/fev_bounded_mpmc_queue.h:126-155 | a bound is needed: for every capacity below 2^31 the code has a run from its initial state, within the bound but for the last step, that ends with one element more than the capacity |
| MpmcOverflow.SoloPush | src/fev_bounded_mpmc_queue.h:126-155 | a push that runs alone while no operation is busy with a cell succeeds if the queue is not full, in 32 bits |
| MpmcOverflow.SoloPop | src/fev_bounded_mpmc_queue.h:93-124 | a pop that runs alone while no operation is busy with a cell succeeds if the queue is not empty, and returns the first element |
| SpmcQueue.NextInv | src/fev_bounded_spmc_queue.h:75-160 | every access of the producer and of any number of consumers keeps the elements in their slots |
| SpmcQueue.RefinesFifo | src/fev_bounded_spmc_queue.h:75-160 | push appends at the store of the tail; a successful CAS means that the value read before it is the first element, despite reuse of slots; an empty answer is exact at the load of the tail |
| SpmcQueue.PublishesLongestPrefix | src/fev_bounded_spmc_queue.h:124-160 | a push publishes exactly the longest prefix of its list that fitted when it loaded the head, and keeps the rest |
| SpmcQueue.Run32 | src/fev_bounded_spmc_queue.h:75-160 | a run of the code with its 32-bit counters, in which no consumer sleeps through 2^32 operations between its load of the head and the tests of it, is a run of the model |
| SpmcQueue.FreeExact | src/fev_bounded_spmc_queue.h:133-140 | the producer's 32-bit arithmetic is exact without any such bound |
| NodePool.NextInv | src/fev_simple_mpmc_pool.h:93-154 | every access of stack and pool keeps stack, caches and nodes in transit apart and linked |
| NodePool.RefinesStack | src/fev_simple_mpmc_stack.h:45-83 | push and pop are those of a sequential stack at their CAS although nodes are recycled and count and top are read apart; an empty answer is exact at the load of the top |
| NodePool.OnePlace | src/fev_simple_mpmc_pool.h:93-154 | a node is in the stack, in one cache, in one push or in a caller's hands: exactly one of these, once |
| NodePool.AllocatedOnce | src/fev_simple_mpmc_pool.h:93-111 | no double allocation: a node that is handed out was in no caller's hands before, or is new |
| NodePool.HeldUntilFreed | src/fev_simple_mpmc_pool.h:113-130 | a node leaves a caller's hands only by being freed |
| NodePool.CacheSize | src/fev_simple_mpmc_pool.h:93-130 | cur_size is the length of the linked local list, at most max_size |
| NodePool.Run64 | src/fev_simple_mpmc_stack.h:45-83 | a run of the code with its 64-bit count, in which no thread sleeps through 2^64 operations between its load of the count and its CAS, is a run of the model |
| TimerHeap.SiftUp | src/fev_timers_binheap.c:32-58 | restores heap order after putting a timer at an index, keeps the other timers and every back-pointer, and says when the timer becomes the root |
| TimerHeap.Sink | src/fev_timers_binheap.c:79-114 | the last timer fills the hole at or below its place; only the edge above the hole may be out of order |
| TimerHeap.SiftDown | src/fev_timers_binheap.c:64-115 | removes exactly the timer at an index; the root changes only if it is that timer |
| TimerHeap.RootIsMin | src/fev_timers_binheap.h:64-74 | in heap order the root is not later than any timer |
| TimerHeap.Bucket.Grow | src/fev_timers_binheap.c:117-137 | doubles the capacity and keeps the timers, or fails and changes nothing |
| TimerHeap.Bucket.Add | src/fev_timers_binheap.c:139-154 | adds exactly the timer, keeps the heap valid and returns 1 exactly if the timer became the root, which is exactly if it is earlier than the old root; on failure nothing changes |
| TimerHeap.Bucket.Del | src/fev_timers_binheap.c:156-176 | removes exactly the timer from any index and returns 0 only with the same root as before |
| TimerHeap.Bucket.DelMin | src/fev_timers_binheap.c:178-183 | removes exactly the root |
| TimerHeap.Bucket.TakeExpired | src/fev_timers.c:106-142 | removes exactly the timers due at or before now, in the order of their deadlines, and marks them expired |
| Time.Cmp | src/fev_time.h:44-63 | compares as the points in time do, and gives 0 only for equal times |
| Time.AbsToRel | src/fev_time.h:65-94 | the time left until a point in time, or 0 if it has passed |
| Time.AbsSinceNow | src/fev_time.h:96-109 | the point in time that lies the given time ahead, as a valid timespec |
| Time.RoundTrip | src/fev_time.h:65-109 | turning a relative time into an absolute one and back gives it again |
| Time.RoundTripAbs | src/fev_time.h:65-109 | turning an absolute time into a relative one and back gives it again, or now if it has passed |
| Time.ToNs | src/fev_time.h:111-130 | the exact number of nanoseconds, or the greatest 64-bit number if that is too large |

## Left out

- C11 memory orderings: all steps are sequentially consistent, and the double-word compare-and-swap is one step.
- MpmcQueue.RefinesFifo: positions are unbounded; Run32 carries it to the 32-bit counters of the code, for runs in which no thread lags by 2^31 operations less the capacity; OverflowIsReachable is a run beyond that in which it fails.
- SpmcQueue.RefinesFifo: positions are unbounded; Run32 carries it to 32 bits, for runs in which no consumer lags by 2^32 operations.
- NodePool.RefinesStack: the count is unbounded; Run64 carries it to 64 bits, for runs in which no thread lags by 2^64 operations.
- Semaphore.Conservation: the value is unbounded; by the equation it stays below 2^31 if initial value plus posts does.
- SchedulerFibers.SizeIsLength: the size is unbounded; it is at most the number of fibers.
- TimedWaitTheorems.LifetimeSafety: holds with `FEV_TIMERS_ADD_CAN_FAIL` equal to 0; the -ENOMEM exit of a timed wait is not modelled.
- Timed condition waits: their timeout exit returns without the mutex by design.
- Sleeping in the schedulers with bounded run queues: the same code as with locked run queues.
- How the workers stop when the last fiber is gone: num_fibers is not counted, a worker that has seen no runnable fiber may exit or not, and only runs in which all workers stay are described by NoSleepWithWork.
- Work-sharing schedulers: the same accounting without the second look.
- Liveness: no fairness is assumed, and what must happen eventually is stated as what is still owed.
- Spinlocks, context switches, stacks, thread creation, sockets, epoll, kqueue and io_uring, attributes and the C++ wrapper.
- src/fev_simple_mpmc_queue.h, src/fev_qsbr_queue.h and src/fev_timers_rbtree.c, and reactor sockets, which reuse their waiters.
