# Verification of the hio concurrency layer

This project models the concurrency layer of hio (`crates/hio-concurrent`) in Dafny and
proves properties of it over every interleaving, for any number of threads:

- `LinkedBQ`, the two-lock linked blocking queue: its memory on real heap nodes, its
  protocol as a step machine, and the two joined (the machine runs on the nodes);
- `ArrayBQ`, the one-lock blocking queue, as an object and as a step machine;
- `FutexSemaphore` and `CondvarSemaphore`, the counting semaphores with a lock-free fast
  path;
- `ThreadPerTaskPool` and `ThreadPool`, the executors on top of these.

`dafny verify dfyconfig.toml` checks the whole project.

## How the model is built

Each concurrent component has a *machine*: a `State` value with a program counter per
thread, a `Step` datatype with one constructor per atomic action of the source (a load, a
compare-and-swap, a lock, a wait, a notify), `Enabled`, `Apply`, and `Run` over sequences
of steps.  Values a thread has loaded travel in its program counter, so they may be stale
when it acts on them.  An inductive invariant is proved for every step, and the results
are stated for every state any run can reach.  Beside each machine stands a class that
performs the same actions in place; its methods are proved equal to `Apply`.

What a call answers is read off the steps of a run, not off `Apply`: for every thread a log of the
calls it has begun and the answers they got is kept, and every call is proved to get exactly one
answer that fits it (`CallLog.Kept`).

| file | content |
|---|---|
| `Base.dfy` | options, error codes, capacity rule, sums and bags over the thread table, traces |
| `QueueSpec.dfy` | the blocking queue as an atomic bounded FIFO, its histories, and what follows for any trace |
| `SequentialSpec.dfy` | the queue interface as one thread sees it |
| `QueueOps.dfy`, `LinkedChain.dfy`, `LinkedMachine.dfy` | operations, memory actions and protocol of `LinkedBQ` |
| `LinkedInvariant.dfy`, `LinkedWakeup.dfy`, `LinkedDispose.dfy`, `LinkedTheorems.dfy`, `LinkedLimits.dfy` | its invariant and results, and what it does not promise |
| `CallLog.dfy` | calls and the answers that fit them, for queues and semaphores |
| `LinkedProgress.dfy`, `LinkedConservation.dfy`, `LinkedCalls.dfy` | no deadlock, no item lost, every call answered |
| `LinkedBQ.dfy`, `LinkedSystem.dfy` | `LinkedBQ` on heap nodes, and the machine run on them |
| `ArrayMachine.dfy`, `ArrayInvariant.dfy`, `ArrayWakeup.dfy`, `ArrayTheorems.dfy`, `ArrayProgress.dfy`, `ArrayCalls.dfy`, `ArrayBQ.dfy` | the same for `ArrayBQ` |
| `Comparison.dfy` | both queues, side by side |
| `FutexSemaphore.dfy`, `FutexCalls.dfy`, `CondvarSemaphore.dfy`, `CondvarCalls.dfy` | the semaphores |
| `ThreadPerTask.dfy`, `ThreadPerTaskHandles.dfy`, `ThreadPerTaskProgress.dfy`, `ThreadPerTaskCalls.dfy`, `ThreadPool.dfy`, `Executors.dfy` | the executors |
| `ThreadPoolQueues.dfy`, `PoolOverLinked.dfy`, `PoolOverLinkedLoss.dfy` | ThreadPool over the two queues |

## Assumptions

- Memory is sequentially consistent; every action of a machine is atomic.
- A condition variable's `wait` releases the mutex and sleeps in one action; `notify_one`
  wakes some sleeper if there is one; sleepers may also wake spuriously or by timeout at any
  instant.  `wait_timeout_while` reports a timeout only if its condition still held when last
  evaluated.
- `FutexWord.wait(0)` sleeps only if the word is 0 at that instant; `wake_all` wakes every
  sleeper.
- Clocks and schedulers are nondeterministic: a deadline may have passed whenever it is
  looked at, and `is_finished` may be late but never early.
- Mutexes are never poisoned, and allocation does not fail.
- `dispose` of an executor has an exclusive reference, so no submit of the same pool
  overlaps it.  A ThreadPool's queue is shared: others may push into it, dispose it or take jobs
  out of it, and the machine says which of these they do.

## Findings

The code does not meet the following expectations.  Runs that show it are given, and the
exact conditions under which it does.

- `LinkedBQ::try_pop` (crates/hio-concurrent/src/bq/linked_bq.rs:260-261) reads `count` and `disposed` at different instants, so it
  can report `ResourceUnavailable` although an accepted item is in the queue
  (`TryPopMayRefuseANonEmptyQueue`).  Called on an empty queue it can be trusted under every
  schedule if and only if the queue is closed by then, that is, disposed with no push past its
  own test of `disposed` (`TryPopCanBeTrusted`; `TryPopAnswersAreRight` says the same of the
  moment it looks).  A caller has this after `dispose` has returned
  (`TryPopAfterDisposeIsFinal`).  Where the queue is not disposed yet, "only if" assumes two more
  idle threads, one to push and one to dispose.
- `LinkedBQ::pop` and `pop_timeout` (crates/hio-concurrent/src/bq/linked_bq.rs:249-252, 288-291) can be refused before the queue is
  closed, so that an item is accepted after the refusal (`PopMayRefuseEarly`).  A refusal is final
  under every schedule if and only if the queue was closed (`RefusedPopIsFinal`).
- The overflow check of `FutexSemaphore::release` (crates/hio-concurrent/src/semaphore/futex_semaphore.rs:97) comes after the addition and subtracts
  `n` from the maximum.  It rejects every excess exactly if overflow checks are compiled in or `n`
  is at most the maximum (`ReleaseCheckIsExact`).  A release that panics there has already added
  its permits and wakes nobody, so it can leave a sleeper behind
  (`PanickedReleaseStrandsSleeper`).  While a thread sleeps, a release of any size keeps every
  permit covered if and only if the check lets it pass or the candidates and wakes at hand cover
  even the permits no wake is owed for (`ReleaseKeepsCoverage`).  With overflow checks or `n` in the
  documented range, as long as the sum fits 32 bits and at most 0x7FFFFFFF candidates and wakes are
  under way, that is: if and only if it fits (`ReleaseMustFit`).
- `ThreadPool` (crates/hio-concurrent/src/executor/thread_pool.rs:52-79) can return from `dispose` with accepted jobs unexecuted.  It executes
  every accepted job in every run if and only if fewer jobs panic than there are workers, nobody
  else takes jobs out of the shared queue, and the queue refuses a pop only when it is closed or
  nobody else pushes into it or disposes it (`EveryJobRunsOnceIff`; one run for each way to lose a
  job).  `ArrayBQ` refuses only when closed (`ArrayQueueIsStrict`); `LinkedBQ` does not
  (`LinkedWorkerLeavesTooEarly`; `PoolOverLinkedLoss` loses a job with the queue's own actions).

## Model

| member | source | states |
|---|---|---|
| `Base.EnsureCapacity` | crates/hio-concurrent/src/bq.rs:101-103 | a capacity asked for is kept, 0 stands for the largest; so an empty queue is never full |
| `QueueSpec.FifoConservation` | crates/hio-concurrent/src/bq.rs:84-99 | on every trace of the FIFO, accepted items are the delivered ones followed by the contents, within the capacity |
| `QueueSpec.ClosedFreezes` | crates/hio-concurrent/src/bq.rs:84-99 | a closed queue stays closed and its accepted items stay the same |
| `QueueSpec.RefusalIsFinal` | crates/hio-concurrent/src/bq.rs:84-99 | once a closed queue refuses a pop it stays empty, with everything accepted delivered in order |
| `LinkedQueue.Node.constructor` | crates/hio-concurrent/src/bq/linked_bq.rs:18-33 | a new node holds its item and links to nothing |
| `LinkedQueue.LinkedBQ.constructor` | crates/hio-concurrent/src/bq/linked_bq.rs:62-82 | one dummy without item, both ends at it, nothing freed |
| `LinkedQueue.LinkedBQ.Link` | crates/hio-concurrent/src/bq/linked_bq.rs:127-131 | a fresh node with the item follows the old last node; the tail lags one node behind |
| `LinkedQueue.LinkedBQ.Advance` | crates/hio-concurrent/src/bq/linked_bq.rs:132 | the tail is the last node again, the chain unchanged |
| `LinkedQueue.LinkedBQ.Take` | crates/hio-concurrent/src/bq/linked_bq.rs:146-155 | the oldest item leaves its node, which exists and holds one |
| `LinkedQueue.LinkedBQ.Free` | crates/hio-concurrent/src/bq/linked_bq.rs:157-158 | the old dummy is freed, never before, and is not the node the producers' tail points at |
| `LinkedQueue.LinkedBQ.EnQ` | crates/hio-concurrent/src/bq/linked_bq.rs:124-144 | for one thread: the item is appended and counted; whether the queue was empty before is reported |
| `LinkedQueue.LinkedBQ.UnlinkHead` | crates/hio-concurrent/src/bq/linked_bq.rs:146-161 | the oldest item comes out, the dummy is freed, the count stays |
| `LinkedQueue.LinkedBQ.DeQ` | crates/hio-concurrent/src/bq/linked_bq.rs:163-176 | for one thread: the oldest item comes out and is subtracted; whether the queue was full before is reported |
| `LinkedQueue.LinkedBQ.Push` | crates/hio-concurrent/src/bq/linked_bq.rs:180-197 | result and contents of a lone push: accepted, refused with the item, or waiting |
| `LinkedQueue.LinkedBQ.TryPush` | crates/hio-concurrent/src/bq/linked_bq.rs:199-211 | result and contents of try_push, disposed before full |
| `LinkedQueue.LinkedBQ.PushTimeout` | crates/hio-concurrent/src/bq/linked_bq.rs:213-236 | result and contents of a push whose timeout expires when it has to wait |
| `LinkedQueue.LinkedBQ.Pop` | crates/hio-concurrent/src/bq/linked_bq.rs:238-255 | result and contents of a lone pop; a disposed queue still delivers |
| `LinkedQueue.LinkedBQ.TryPop` | crates/hio-concurrent/src/bq/linked_bq.rs:257-269 | result and contents of try_pop |
| `LinkedQueue.LinkedBQ.PopTimeout` | crates/hio-concurrent/src/bq/linked_bq.rs:271-294 | result and contents of a pop whose timeout expires when it has to wait |
| `LinkedQueue.LinkedBQ.Drain` | crates/hio-concurrent/src/bq/linked_bq.rs:296-316 | all items in order, the queue empty afterwards when nobody pushes meanwhile |
| `LinkedQueue.LinkedBQ.Dispose` | crates/hio-concurrent/src/bq/linked_bq.rs:318-333 | for one thread: the first dispose wins; the contents stay |
| `LinkedQueue.LinkedBQ.Drop` | crates/hio-concurrent/src/bq/linked_bq.rs:348-358 | the drop loop ends, and every node ever allocated, dummy included, has been freed exactly once over the queue's life |
| `LinkedInvariant.CoreAdd` | crates/hio-concurrent/src/bq/linked_bq.rs:134 | the fetch_add appends exactly the pushed item to the abstract queue and to the accepted history |
| `LinkedInvariant.CoreFree` | crates/hio-concurrent/src/bq/linked_bq.rs:157-158 | freeing the dummy keeps the abstract queue, and the chain reaches beyond a lagging tail |
| `LinkedInvariant.CoreSub` | crates/hio-concurrent/src/bq/linked_bq.rs:165 | the fetch_sub removes exactly the oldest item and adds it to the delivered history |
| `LinkedInvariant.CoreDrainSub` | crates/hio-concurrent/src/bq/linked_bq.rs:304-306 | the drain's fetch_sub removes exactly the unlinked prefix, in order |
| `LinkedInvariant.StepKeepsStructure` | crates/hio-concurrent/src/bq/linked_bq.rs:110-333 | every atomic action of every operation keeps lock ownership, waiter counts, chain, count and histories in agreement |
| `LinkedTheorems.StepKeepsInv` | crates/hio-concurrent/src/bq/linked_bq.rs:110-333 | every action keeps the whole invariant: structure, wakeups on both sides, dispose on both sides |
| `LinkedTheorems.ChainMatchesCount` | crates/hio-concurrent/src/bq/linked_bq.rs:124-161 | in every reachable state the chain has count + uncounted push - unsubtracted pops nodes behind the dummy and never exceeds the capacity |
| `LinkedTheorems.CountedPushFits` | crates/hio-concurrent/src/bq/linked_bq.rs:124-134 | a push that is linked but not counted still fits when it is counted |
| `LinkedTheorems.UnlinkIsSafe` | crates/hio-concurrent/src/bq/linked_bq.rs:146-161 | in every run, whoever unlinks finds a successor beyond a lagging tail, and the item it holds is the one the chain had first |
| `LinkedTheorems.ChainActionsEnabled` | crates/hio-concurrent/src/bq/linked_bq.rs:146-176 | a thread about to take, free, subtract or continue a drain always can: no null successor, no missing item, no underflow |
| `LinkedTheorems.StepRefines` | crates/hio-concurrent/src/bq/linked_bq.rs:124-294 | every action is a step of the atomic FIFO: push at fetch_add, pop and drain at fetch_sub, a failing result where it is decided, nothing else visible |
| `LinkedTheorems.RunRefines` | crates/hio-concurrent/src/bq/linked_bq.rs:124-333 | every run is a trace of the atomic FIFO that ends in the run's last state |
| `LinkedTheorems.ErrorsAreAnnounced` | crates/hio-concurrent/src/bq/linked_bq.rs:180-294 | every error is an event of the FIFO when it is decided: refused and timed-out pushes and pops, full, empty; try_pop announces that it saw the queue empty, and names it unavailable exactly if it is disposed at the second look |
| `LinkedTheorems.AnnouncedIsAnswered` | crates/hio-concurrent/src/bq/linked_bq.rs:180-294 | and conversely every announced error is what the caller gets, with its own item, by the same step |
| `LinkedCalls.CallsAreAnswered` | crates/hio-concurrent/src/bq/linked_bq.rs:180-316 | in every run and for every thread each push, pop and drain gets exactly one answer, in order: a push its own item accepted or handed back, a pop one item or an error, WouldBlock only from a try call, Timeout only from a timed one; nothing is pending outside a call |
| `LinkedCalls.HistoriesAreAnswers` | crates/hio-concurrent/src/bq/linked_bq.rs:124-316 | what was accepted and delivered is what the threads' answers say, in the order they took effect |
| `LinkedCalls.NothingIsRuledOut` | crates/hio-concurrent/src/bq/linked_bq.rs:180-333 | an idle thread may begin any call, a sleeper wake at any time, a wait expire at any look exactly if it is timed |
| `LinkedCalls.SignalsAreDue` | crates/hio-concurrent/src/bq/linked_bq.rs:135-174 | whom a push or pop notifies: the other side when the queue stops being empty or full, its own side while there is more to do and somebody waits |
| `LinkedWakeup.StepKeepsWakeup` | crates/hio-concurrent/src/bq/linked_bq.rs:110-144 | no action, barging and drains included, leaves a side exposed with nobody on the way |
| `LinkedTheorems.NobodySleepsForNothing` | crates/hio-concurrent/src/bq/linked_bq.rs:110-316 | while not disposed, a producer asleep with room left or a consumer asleep with an item there implies an owed signal, an awake waiter or a committed operation that cascades |
| `LinkedDispose.NotifyAllEndsPending` | crates/hio-concurrent/src/bq/linked_bq.rs:324-331 | the disposer's notify_all leaves no sleeper and no thread that acts on an older look at the flag |
| `LinkedTheorems.DisposeStrandsNobody` | crates/hio-concurrent/src/bq/linked_bq.rs:318-333 | after the winning dispose nobody sleeps, nobody is about to, and nothing can be accepted |
| `LinkedTheorems.DisposeIsFinal` | crates/hio-concurrent/src/bq/linked_bq.rs:318-333 | and so it stays in every continuation, with the accepted items frozen |
| `LinkedTheorems.RefusalAfterDispose` | crates/hio-concurrent/src/bq/linked_bq.rs:249-252 | after the winning dispose a refused pop means that everything accepted has been delivered, for good |
| `LinkedTheorems.DrainReturnsSnapshot` | crates/hio-concurrent/src/bq/linked_bq.rs:296-307 | a drain returns exactly what the queue held when it loaded count, whatever is pushed meanwhile; the rest stays, in order |
| `LinkedLimits.TryPopMayRefuseANonEmptyQueue` | crates/hio-concurrent/src/bq/linked_bq.rs:257-266 | in every program with three threads, a run in which try_pop reports a disposed queue with an accepted, undelivered item in it as unavailable |
| `LinkedLimits.TryPopAnswersAreRight` | crates/hio-concurrent/src/bq/linked_bq.rs:257-266 | once try_pop has seen the queue empty, the answer of this call, and of all later ones, is right under every schedule if and only if the queue was disposed by then and no push was past its test of disposed; on a queue not disposed two more threads make it wrong |
| `LinkedLimits.TryPopCanBeTrusted` | crates/hio-concurrent/src/bq/linked_bq.rs:257-269 | for the caller: this call of try_pop on an empty queue, and all later ones, can be trusted under every schedule if and only if the queue is closed when it is called |
| `LinkedLimits.TryPopAfterDisposeIsFinal` | crates/hio-concurrent/src/bq/linked_bq.rs:257-269 | a try_pop called after dispose has returned reports the queue as unavailable only when everything accepted has been delivered, for good |
| `LinkedLimits.PushGoesThrough` | crates/hio-concurrent/src/bq/linked_bq.rs:199-211 | a push past its test of disposed is accepted whatever happens to the flag meanwhile |
| `LinkedLimits.RefusedPopIsFinal` | crates/hio-concurrent/src/bq/linked_bq.rs:249-252 | a refused blocking or timed pop saw an empty disposed queue, and is final under every schedule if and only if the queue was closed |
| `LinkedLimits.PopMayRefuseEarly` | crates/hio-concurrent/src/bq/linked_bq.rs:238-252 | in every program with three threads, a run in which a blocking pop is refused before the queue is closed and an item is accepted afterwards |
| `LinkedProgress.HolderAdvances` | crates/hio-concurrent/src/bq/linked_bq.rs:84-98 | whoever holds a mutex has a step that brings it closer to giving it up |
| `LinkedProgress.MutexIsGivenUp` | crates/hio-concurrent/src/bq/linked_bq.rs:84-98 | from every state with the invariant a mutex holder gives the mutex up within a bound, by its own steps alone |
| `LinkedProgress.NoDeadlock` | crates/hio-concurrent/src/bq/linked_bq.rs:110-333 | every thread inside an operation sleeps on a condition variable, can go on, or waits for a mutex whose holder can |
| `LinkedProgress.QuiescentMeansBlocked` | crates/hio-concurrent/src/bq/linked_bq.rs:110-333 | in every run, when nothing can run any more only sleepers are left; a sleeping producer proves the queue full, a sleeping consumer empty, and nobody sleeps on a disposed queue |
| `LinkedConservation.OfferedItemsConserved` | crates/hio-concurrent/src/bq/linked_bq.rs:180-236 | in every run each offered item is accepted, handed back with an error or still under way, exactly one of these |
| `LinkedSystem.MemoryReady` | crates/hio-concurrent/src/bq/linked_bq.rs:124-161 | every enabled action finds the chain as its memory accesses need it |
| `LinkedSystem.RunIsMemorySafe` | crates/hio-concurrent/src/bq/linked_bq.rs:124-161 | so does every action of every run |
| `LinkedSystem.System.PushStep` | crates/hio-concurrent/src/bq/linked_bq.rs:124-134 | link, advance and count on real nodes do what the machine says |
| `LinkedSystem.System.PopStep` | crates/hio-concurrent/src/bq/linked_bq.rs:146-165 | take, free and subtract on real nodes do what the machine says |
| `LinkedSystem.System.DrainStep` | crates/hio-concurrent/src/bq/linked_bq.rs:301-303 | one turn of the drain loop on real nodes |
| `LinkedSystem.System.Step` | crates/hio-concurrent/src/bq/linked_bq.rs:84-333 | any enabled action on the object and its nodes keeps the invariant and does what the machine says |
| `LinkedSystem.System.Execute` | crates/hio-concurrent/src/bq/linked_bq.rs:124-333 | any schedule runs on the heap nodes to the machine's end state, invariant kept |
| `LinkedSystem.System.Finish` | crates/hio-concurrent/src/bq/linked_bq.rs:124-358 | after any schedule the drop loop completes the books: every node ever allocated is freed exactly once |
| `ArrayQueue.ArrayBQ.EnterWait` | crates/hio-concurrent/src/bq.rs:50-55 | the waiter counter of one side goes up by one |
| `ArrayQueue.ArrayBQ.LeaveWait` | crates/hio-concurrent/src/bq.rs:34-39 | the waiter counter of one side goes down by one, wrapping at zero |
| `ArrayQueue.ArrayBQ.EnQCommit` | crates/hio-concurrent/src/bq/array_bq.rs:66-77 | the item is appended; consumers are signalled if the buffer was empty, producers if it is not full, each only if somebody waits |
| `ArrayQueue.ArrayBQ.DeQCommit` | crates/hio-concurrent/src/bq/array_bq.rs:79-91 | the oldest item is removed; consumers are signalled if one is left, producers if the buffer was full |
| `ArrayQueue.ArrayBQ.DrainAll` | crates/hio-concurrent/src/bq/array_bq.rs:210-221 | all items leave in order; producers are woken if there was one and somebody waits |
| `ArrayQueue.ArrayBQ.Push` | crates/hio-concurrent/src/bq/array_bq.rs:95-111 | result and contents of a lone push |
| `ArrayQueue.ArrayBQ.TryPush` | crates/hio-concurrent/src/bq/array_bq.rs:113-125 | result and contents of try_push |
| `ArrayQueue.ArrayBQ.PushTimeout` | crates/hio-concurrent/src/bq/array_bq.rs:127-149 | result and contents of a push whose timeout expires when it has to wait |
| `ArrayQueue.ArrayBQ.Pop` | crates/hio-concurrent/src/bq/array_bq.rs:151-168 | result and contents of a lone pop |
| `ArrayQueue.ArrayBQ.TryPop` | crates/hio-concurrent/src/bq/array_bq.rs:170-184 | result and contents of try_pop |
| `ArrayQueue.ArrayBQ.PopTimeout` | crates/hio-concurrent/src/bq/array_bq.rs:186-208 | result and contents of a pop whose timeout expires when it has to wait |
| `ArrayInvariant.StepKeepsStructure` | crates/hio-concurrent/src/bq/array_bq.rs:95-235 | every action keeps the mutex exclusive, the waiter counters exact, the buffer within capacity and the histories consistent |
| `ArrayWakeup.SleepersAreCounted` | crates/hio-concurrent/src/bq/array_bq.rs:69-87 | whoever sleeps is counted, so a signal skipped for want of waiters misses nobody |
| `ArrayWakeup.StepKeepsWakeup` | crates/hio-concurrent/src/bq/array_bq.rs:51-91 | no action loses a wakeup although notifies are sent without the mutex |
| `ArrayTheorems.NobodySleepsForNothing` | crates/hio-concurrent/src/bq/array_bq.rs:51-221 | while not disposed, a sleeper with something to do implies a pending notify or an awake thread that passes the turn on |
| `ArrayTheorems.CommitNeverFails` | crates/hio-concurrent/src/bq/array_bq.rs:79-91 | in every run whoever commits a pop finds an item and whoever commits a push finds room, so the expect never fails |
| `ArrayTheorems.RefusalMeansClosed` | crates/hio-concurrent/src/bq/array_bq.rs:161-203 | a refused pop of any kind happens on a disposed, empty queue that can accept nothing |
| `ArrayTheorems.StepRefines` | crates/hio-concurrent/src/bq/array_bq.rs:66-235 | every action is a step of the same atomic FIFO, failing results included |
| `ArrayTheorems.RunRefines` | crates/hio-concurrent/src/bq/array_bq.rs:66-235 | every run is a trace of the atomic FIFO |
| `ArrayTheorems.ErrorsAreAnnounced` | crates/hio-concurrent/src/bq/array_bq.rs:95-208 | every error a caller gets is an event of the FIFO at the instant it is decided, with its cause: disposed, full, empty, expired |
| `ArrayTheorems.AnnouncedIsAnswered` | crates/hio-concurrent/src/bq/array_bq.rs:95-208 | and conversely every announced error is what the caller gets, with its own item, by the same step |
| `ArrayCalls.CallsAreAnswered` | crates/hio-concurrent/src/bq/array_bq.rs:95-221 | in every run and for every thread each push, pop and drain gets exactly one answer, in order, that fits it; a blocking call fails only as unavailable |
| `ArrayCalls.HistoriesAreAnswers` | crates/hio-concurrent/src/bq/array_bq.rs:66-221 | what was accepted and delivered is what the threads' answers say, in the order they took effect |
| `ArrayCalls.NothingIsRuledOut` | crates/hio-concurrent/src/bq/array_bq.rs:95-235 | an idle thread may begin any call, a sleeper wake at any time, a wait expire at any look exactly if it is timed |
| `ArrayCalls.SignalsAreDue` | crates/hio-concurrent/src/bq/array_bq.rs:66-87 | the same for the array queue's commits |
| `ArrayTheorems.RefusalIsFinal` | crates/hio-concurrent/src/bq/array_bq.rs:151-208 | after one ResourceUnavailable from a pop the queue is empty forever, everything accepted being delivered |
| `ArrayTheorems.DisposeStrandsNobody` | crates/hio-concurrent/src/bq/array_bq.rs:223-235 | after the winning dispose nobody sleeps, nobody is about to, and nothing can be accepted |
| `ArrayTheorems.DisposeIsFinal` | crates/hio-concurrent/src/bq/array_bq.rs:223-235 | and so it stays in every continuation |
| `ArrayTheorems.HistoryConserved` | crates/hio-concurrent/src/bq/array_bq.rs:95-221 | in every run accepted items are the delivered ones followed by the buffer, within capacity, and every offered item is accepted, handed back or still under way, exactly one of these |
| `ArrayProgress.NoDeadlock` | crates/hio-concurrent/src/bq/array_bq.rs:95-235 | every thread inside an operation sleeps on a condition variable, can go on, or waits for the mutex while its owner can |
| `ArrayProgress.QuiescentMeansBlocked` | crates/hio-concurrent/src/bq/array_bq.rs:51-235 | in every run, when nothing can run any more only sleepers are left, each with a reason, and none on a disposed queue |
| `ArrayQueue.System.Step` | crates/hio-concurrent/src/bq/array_bq.rs:51-235 | any enabled action on the object keeps the invariant and does what the machine says |
| `ArrayQueue.System.Execute` | crates/hio-concurrent/src/bq/array_bq.rs:95-235 | any schedule runs on the object to the machine's end state, invariant kept |
| `SequentialSpec.SequentialFifo` | crates/hio-concurrent/src/bq.rs:84-99 | over every sequence of calls items come out in the order they went in, none lost or invented, within capacity |
| `SequentialSpec.PushPromises` | crates/hio-concurrent/src/bq.rs:85-88 | a push is done exactly on an open queue with room; otherwise nothing changes and the item comes back with the reason |
| `SequentialSpec.PopPromises` | crates/hio-concurrent/src/bq.rs:89-92 | a pop delivers the oldest item exactly if there is one, disposed or not; otherwise nothing changes and the reason is given |
| `SequentialSpec.DrainIsAllPops` | crates/hio-concurrent/src/bq.rs:94 | a drain gives what popping until nothing is left gives, and leaves the same empty queue |
| `SequentialSpec.QueryPromises` | crates/hio-concurrent/src/bq.rs:95-98 | dispose only sets the flag; size and is_disposed change nothing and tell the truth |
| `Comparison.RunLinked` | crates/hio-concurrent/src/bq/linked_bq.rs:179-346 | the linked queue answers every sequence of calls as the interface specification does |
| `Comparison.RunArray` | crates/hio-concurrent/src/bq/array_bq.rs:94-247 | so does the array queue |
| `Comparison.RunBoth` | crates/hio-concurrent/src/bq.rs:105-110 | whichever queue is created, the same calls return the same results, first in first out |
| `FutexSemaphore.LocalStepKeepsInv` | crates/hio-concurrent/src/semaphore/futex_semaphore.rs:26-52 | an action of one thread keeps the invariant if it pays for the coverage it gives up |
| `FutexSemaphore.WakeOneKeepsInv` | crates/hio-concurrent/src/semaphore/futex_semaphore.rs:55-63 | one wake trades an owed wake for an awake candidate, or finds nobody asleep |
| `FutexSemaphore.StepKeepsInv` | crates/hio-concurrent/src/semaphore/futex_semaphore.rs:26-103 | every action keeps waiter count, coverage and conservation |
| `FutexSemaphore.NoLostWakeup` | crates/hio-concurrent/src/semaphore/futex_semaphore.rs:26-103 | in every run whose releases fit when called: permits are conserved and never wrap; while a thread sleeps, permits are covered by awake slow-path threads and owed wakes; with nothing left to run a sleeper means no permits |
| `FutexSemaphore.QuiescentMeansNoPermits` | crates/hio-concurrent/src/semaphore/futex_semaphore.rs:26-103 | in such runs, when no step is enabled but new calls and spurious wakes, only sleepers are left inside, and a sleeper means no permits |
| `FutexSemaphore.RunInLimit` | crates/hio-concurrent/src/semaphore/futex_semaphore.rs:92-97 | a run keeps within the limit if and only if each of its releases fits when called |
| `FutexSemaphore.TotalInLimit` | crates/hio-concurrent/src/semaphore/futex_semaphore.rs:92-97 | it is enough that initial and released permits together fit |
| `FutexSemaphore.ReleaseKeepsCoverage` | crates/hio-concurrent/src/semaphore/futex_semaphore.rs:92-103 | while a thread sleeps, a release of any size keeps coverage if and only if its overflow check passes or the permits are covered without it |
| `FutexSemaphore.ReleaseMustFit` | crates/hio-concurrent/src/semaphore/futex_semaphore.rs:92-103 | for the caller: with overflow checks or in the documented range a release keeps coverage if and only if it fits |
| `FutexSemaphore.PanicsAreExact` | crates/hio-concurrent/src/semaphore/futex_semaphore.rs:96-97 | with overflow checks or in the documented range some release panics if and only if some release did not fit |
| `FutexSemaphore.ReleaseCheckIsExact` | crates/hio-concurrent/src/semaphore/futex_semaphore.rs:96-97 | the overflow check rejects every excess exactly if its subtraction cannot wrap, and accepts every release that fits |
| `FutexSemaphore.PanickedReleaseStrandsSleeper` | crates/hio-concurrent/src/semaphore/futex_semaphore.rs:92-103 | a run in which a panicking release leaves a thread asleep on available permits |
| `FutexSemaphore.WaitersBounded` | crates/hio-concurrent/src/semaphore/futex_semaphore.rs:42-45 | the waiter counter is at most the number of threads |
| `FutexCalls.CallsAreAnswered` | crates/hio-concurrent/src/semaphore/futex_semaphore.rs:71-103 | in every run and for every thread each call gets exactly one answer, in order: an acquire returns only with a permit of its own, a try with one or none, a release has handed in what it was called with |
| `FutexCalls.PermitsFollowAnswers` | crates/hio-concurrent/src/semaphore/futex_semaphore.rs:26-97 | in every run whose releases fit: permits at hand + permits acquires returned with = initial + permits releases were called with |
| `FutexCalls.NobodySleepsOnPermits` | crates/hio-concurrent/src/semaphore/futex_semaphore.rs:41-63 | a thread goes to wait and to sleep only on seeing 0; a release wakes nobody, everybody or n as the waiters it sees demand |
| `FutexCalls.NothingIsRuledOut` | crates/hio-concurrent/src/semaphore/futex_semaphore.rs:26-103 | an idle thread may begin any call, a weak exchange fail and a sleeper wake at any time; a strong exchange fails only if the word has changed |
| `FutexSemaphore.System.Step` | crates/hio-concurrent/src/semaphore/futex_semaphore.rs:26-103 | any enabled action, performed in place, keeps the invariant and does what the machine says |
| `FutexSemaphore.System.Execute` | crates/hio-concurrent/src/semaphore/futex_semaphore.rs:26-103 | any schedule runs on the object to the machine's end state |
| `CondvarSemaphore.LocalStepKeepsInv` | crates/hio-concurrent/src/semaphore/condvar_semaphore.rs:52-117 | an action of one thread keeps the invariant if it pays for the coverage it gives up, before and after the mutex |
| `CondvarSemaphore.NotifyOneKeepsInv` | crates/hio-concurrent/src/semaphore/condvar_semaphore.rs:172-178 | a notify trades an owed wake for a candidate, or finds nobody asleep |
| `CondvarSemaphore.StepKeepsInv` | crates/hio-concurrent/src/semaphore/condvar_semaphore.rs:52-179 | every action keeps waiter count, mutex, coverage and conservation |
| `CondvarSemaphore.NoLostWakeup` | crates/hio-concurrent/src/semaphore/condvar_semaphore.rs:70-179 | in every run: while a thread sleeps, permits are covered by candidates and owed wakes; while one is about to sleep, by wakes that must still take the mutex; with nothing left to run a sleeper means no permits |
| `CondvarSemaphore.NoDeadlock` | crates/hio-concurrent/src/semaphore/condvar_semaphore.rs:70-179 | every thread inside an operation sleeps, can go on, or waits for the mutex while its owner can |
| `CondvarSemaphore.QuiescentMeansNoPermits` | crates/hio-concurrent/src/semaphore/condvar_semaphore.rs:52-179 | in every run, when no step is enabled but new calls and spontaneous wakes, only sleepers are left inside, and a sleeper means no permits |
| `CondvarSemaphore.PermitsConserved` | crates/hio-concurrent/src/semaphore/condvar_semaphore.rs:52-166 | permits + acquired is at most initial + released in every run, and equal if and only if no addition saturated |
| `CondvarCalls.CallsAreAnswered` | crates/hio-concurrent/src/semaphore/condvar_semaphore.rs:70-166 | in every run and for every thread each call gets exactly one answer, in order: an acquire without a deadline returns only with a permit, one with a deadline without only once it has passed |
| `CondvarCalls.PermitsFollowAnswers` | crates/hio-concurrent/src/semaphore/condvar_semaphore.rs:52-166 | permits at hand + permits acquires returned with is at most initial + permits releases were called with, and equal if and only if no addition saturated |
| `CondvarCalls.NobodySleepsOnPermits` | crates/hio-concurrent/src/semaphore/condvar_semaphore.rs:95-116 | a thread decides to sleep only on seeing 0; a release takes the mutex exactly if it sees a waiter |
| `CondvarCalls.NothingIsRuledOut` | crates/hio-concurrent/src/semaphore/condvar_semaphore.rs:52-179 | an idle thread may begin any call; an exchange may fail, a sleeper wake and a deadline pass at any time |
| `CondvarSemaphore.System.Step` | crates/hio-concurrent/src/semaphore/condvar_semaphore.rs:17-179 | any enabled action, performed in place, keeps the invariant and does what the machine says |
| `CondvarSemaphore.System.Execute` | crates/hio-concurrent/src/semaphore/condvar_semaphore.rs:17-179 | any schedule runs on the object to the machine's end state |
| `ThreadPerTaskSlots.MoveKeepsSlots` | crates/hio-concurrent/src/executor/thread_per_task.rs:33-60 | an action of one thread keeps the slot accounting if it hands its coverage on |
| `ThreadPerTaskSlots.SpawnKeeps` | crates/hio-concurrent/src/executor/thread_per_task.rs:147-157 | a slot passes unreleased from the submitter to the worker it spawned |
| `ThreadPerTaskSlots.NotifyKeeps` | crates/hio-concurrent/src/executor/thread_per_task.rs:55-60 | a release hands the freed slot's coverage to the sleeper it wakes |
| `ThreadPerTaskSlots.StepKeepsSlots` | crates/hio-concurrent/src/executor/thread_per_task.rs:33-191 | every action of submit, worker and dispose keeps slots, mutexes and coverage |
| `ThreadPerTaskSlots.SlotAccounting` | crates/hio-concurrent/src/executor/thread_per_task.rs:33-60 | in every run thread_count is the number of slots held, at most a positive limit, and positive before every release |
| `ThreadPerTaskCalls.CallsAreAnswered` | crates/hio-concurrent/src/executor/thread_per_task.rs:126-164 | in every run and for every client each submit comes to exactly one of a spawned worker, a failed spawn and a refusal by a disposed pool, in order |
| `ThreadPerTaskCalls.SubmitsAreCounted` | crates/hio-concurrent/src/executor/thread_per_task.rs:126-164 | submits begun on an open pool = workers spawned + failed spawns + submits refused because the pool was disposed when acquire decided + submits under way |
| `ThreadPerTaskCalls.EverySubmitSpawns` | crates/hio-concurrent/src/executor/thread_per_task.rs:33-53 | without a dispose and a failing spawn, submits begun = workers spawned + submits under way, whatever the limit |
| `ThreadPerTaskCalls.SpawnedWorkersRun` | crates/hio-concurrent/src/executor/thread_per_task.rs:147-151 | a spawned worker is past Running exactly if its job has ended, which happens once, before it releases |
| `ThreadPerTaskCalls.NothingIsRuledOut` | crates/hio-concurrent/src/executor/thread_per_task.rs:110-164 | an idle thread may submit unless the pool is borrowed; spawns may fail, sleepers wake and jobs end at any time |
| `ThreadPerTaskSlots.SubmittersAreNotStranded` | crates/hio-concurrent/src/executor/thread_per_task.rs:39-59 | while a submitter sleeps, free slots are covered by awake submitters and notifies on their way; with neither, the pool is full |
| `ThreadPerTaskProgress.NoDeadlock` | crates/hio-concurrent/src/executor/thread_per_task.rs:33-191 | while some thread is inside an operation and awake, some such thread has an enabled step |
| `ThreadPerTaskProgress.QuiescentMeansFull` | crates/hio-concurrent/src/executor/thread_per_task.rs:33-191 | when no step is enabled but new calls and spurious wakes: a sleeping submitter means a full pool that is not disposed, and a dispose that began has returned |
| `ThreadPerTaskHandles.HandleTable.Reap` | crates/hio-concurrent/src/executor/thread_per_task.rs:110-122 | although swap_remove reorders the vector, every handle is inspected exactly once; kept handles are exactly those seen running, joined ones the rest |
| `ThreadPerTaskHandles.SwapRemoveKeepsRest` | crates/hio-concurrent/src/executor/thread_per_task.rs:115-116 | swap_remove takes out the handle at i and nothing else |
| `ThreadPerTaskHandles.StepKeepsBooks` | crates/hio-concurrent/src/executor/thread_per_task.rs:110-191 | every action keeps each spawned handle in the vector, joined, or in one thread's hands |
| `ThreadPerTaskHandles.JoinedAtMostOnce` | crates/hio-concurrent/src/executor/thread_per_task.rs:110-189 | in every run no worker is joined twice, and only finished ones are joined |
| `ThreadPerTaskHandles.DisposeLeavesPoolIdle` | crates/hio-concurrent/src/executor/thread_per_task.rs:166-191 | when dispose has returned every worker ever spawned has finished and was joined exactly once, and thread_count is 0 |
| `Executors.PerTaskPool.Step` | crates/hio-concurrent/src/executor/thread_per_task.rs:33-191 | any enabled action, whoever takes it, keeps slot accounting and ledger |
| `Executors.PerTaskPool.Execute` | crates/hio-concurrent/src/executor/thread_per_task.rs:33-191 | any schedule runs on the object to the machine's end state |
| `ThreadPool.QueueMoves` | crates/hio-concurrent/src/executor/thread_pool.rs:52-79 | whatever workers, submitters, dispose and users of the queue outside the pool do to it is a step of the atomic FIFO |
| `ThreadPool.JobsLeaveInOrder` | crates/hio-concurrent/src/executor/thread_pool.rs:52-62 | in every run jobs leave the queue in the order of acceptance, and each that left has been executed once, is in a worker's hands, or was taken by somebody else |
| `ThreadPool.EveryJobRunsOnce` | crates/hio-concurrent/src/executor/thread_pool.rs:28-79 | when dispose has returned and some worker ended by a refused pop, every accepted job was executed exactly once or taken by somebody else; for a queue that refuses only when closed, or that nobody else pushes into or disposes |
| `ThreadPool.EveryJobRunsOnceDespitePanics` | crates/hio-concurrent/src/executor/thread_pool.rs:52-79 | which is always so with fewer panicking jobs than workers |
| `ThreadPool.LateOutsidePushIsNeverRun` | crates/hio-concurrent/src/executor/thread_pool.rs:28-79 | for every pool over a queue that may refuse before it is closed, a run in which a job pushed from outside during dispose is accepted and never executed |
| `ThreadPool.OutsideDisposeLosesASubmit` | crates/hio-concurrent/src/executor/thread_pool.rs:52-79 | for every such pool, a run in which the queue is disposed from outside and a job of the pool's own submit is accepted and never executed |
| `ThreadPool.TakenJobIsNeverRun` | crates/hio-concurrent/src/executor/thread_pool.rs:52-79 | a run in which a job taken from the queue by somebody else is not executed by the pool |
| `ThreadPool.PanicsLoseAJob` | crates/hio-concurrent/src/executor/thread_pool.rs:52-56 | a run in which as many jobs panic as there are workers and a later accepted job is never executed |
| `ThreadPool.EveryJobRunsOnceIff` | crates/hio-concurrent/src/executor/thread_pool.rs:28-79 | every accepted job is executed exactly once in all runs if and only if fewer jobs panic than there are workers, nobody else takes jobs, and the queue refuses only when closed or nobody else pushes into it or disposes it |
| `PoolOverLinked.QueueMirrors` | crates/hio-concurrent/src/bq/linked_bq.rs:110-333 | ThreadPool and LinkedBQ stepped together: every action of the queue, by worker, submitter, owner or outsider, is a move of the pool machine |
| `PoolOverLinked.RunMirrors` | crates/hio-concurrent/src/executor/thread_pool.rs:28-79 | every run of the two together is a run of the pool machine with the same panics |
| `PoolOverLinked.EveryJobRunsOnce` | crates/hio-concurrent/src/executor/thread_pool.rs:28-79 | a ThreadPool over a LinkedBQ executes every job the queue accepts exactly once under every schedule of the queue's own actions, with fewer panics than workers and nobody else pushing or disposing |
| `PoolOverLinkedLoss.LateOutsidePushIsLost` | crates/hio-concurrent/src/executor/thread_pool.rs:52-79 | a run of a pool with one worker and a LinkedBQ together, action by action, in which dispose returns and a job pushed from outside is accepted and not executed |
| `ThreadPoolQueues.ArrayQueueIsStrict` | crates/hio-concurrent/src/bq/array_bq.rs:151-208 | whenever ArrayBQ refuses a pop, it is closed, as the strict pool demands |
| `ThreadPoolQueues.LinkedQueueIsNotStrict` | crates/hio-concurrent/src/bq/linked_bq.rs:238-255 | every refusal of LinkedBQ is one of the pool that is not strict, and one of the strict pool if and only if the queue is closed |
| `ThreadPoolQueues.LinkedWorkerLeavesTooEarly` | crates/hio-concurrent/src/bq/linked_bq.rs:238-252 | over LinkedBQ, a run in which a worker's pop is refused before the queue is closed and a job is accepted after that |
| `Executors.Pool.Submit` | crates/hio-concurrent/src/executor/thread_pool.rs:60-62 | the job is accepted, refused, or waits, as the queue decides |
| `Executors.Pool.WorkerThreadProc` | crates/hio-concurrent/src/executor/thread_pool.rs:52-56 | sequential stand-in beside module ThreadPool: one worker alone executes what the queue holds, oldest first, and ends exactly if the queue is disposed |
| `Executors.Pool.Dispose` | crates/hio-concurrent/src/executor/thread_pool.rs:68-79 | sequential stand-in beside module ThreadPool: with at least one worker, every job accepted so far has been executed once, in order, when it returns |

## Left out

- Weak memory orderings, cache padding, spinning and yielding: the model is sequentially consistent and does not count spins.
- Fairness: results have the safety form (a wake is owed, a holder can go on, what is left asleep has a reason), not eventual progress under a scheduler.
- The platform futex calls (`futex/linux.rs`, `futex/mswin.rs`): foreign code, replaced by the contract in Assumptions.
- Real time: timeouts expire when the schedule says so; their durations and overflowing deadlines are not modelled.
- Lock poisoning and allocation failure.
- `lock_free_sync_q`, `work_stealing` and the constructors without a body.
- `hio-transport`, `hio-runtime`, `hio` and `hio-core` apart from the error codes: stubs and plumbing.
- `available_permits`, `capacity`, `worker_count`, thread names and stack sizes: plain reads and settings.
- The number of client threads is arbitrary but fixed within a run; ThreadPerTaskPool adds a thread per spawned worker.
- Waiter counters of the queues are unbounded upwards; they equal the number of waiting threads, so wrapping needs 2^64 threads.
- The debug assertions of the queues are not actions of the machine; what they assert follows from the invariant.
- Moving an item out, freeing the dummy and advancing the head are two actions of the machine (Take and Free), since no other thread reads these fields under the pop mutex; en_q is three actions.
- Comparison.RunBoth: does not model waiting calls that another thread would end; a lone waiting call answers `Blocks`, a lone timed one expires.
- Comparison.RunLinked: the same.
- Comparison.RunArray: the same.
- LinkedQueue.LinkedBQ.Push: a lone caller that has to wait gets `Blocks`; waits that another thread ends are actions of module `LinkedMachine`.
- LinkedQueue.LinkedBQ.PushTimeout: a lone caller that has to wait times out; waits that another thread ends are actions of module `LinkedMachine`.
- LinkedQueue.LinkedBQ.Pop: a lone caller that has to wait gets `Blocks`; waits that another thread ends are actions of module `LinkedMachine`.
- LinkedQueue.LinkedBQ.PopTimeout: a lone caller that has to wait times out; waits that another thread ends are actions of module `LinkedMachine`.
- ArrayQueue.ArrayBQ.Push: a lone caller that has to wait gets `Blocks`; waits that another thread ends are actions of module `ArrayMachine`.
- ArrayQueue.ArrayBQ.PushTimeout: a lone caller that has to wait times out; waits that another thread ends are actions of module `ArrayMachine`.
- ArrayQueue.ArrayBQ.Pop: a lone caller that has to wait gets `Blocks`; waits that another thread ends are actions of module `ArrayMachine`.
- ArrayQueue.ArrayBQ.PopTimeout: a lone caller that has to wait times out; waits that another thread ends are actions of module `ArrayMachine`.
- LinkedQueue.LinkedBQ.EnQ: one thread has nobody to notify; the cascade to waiting producers is an action of module `LinkedMachine`.
- LinkedQueue.LinkedBQ.DeQ: one thread has nobody to notify; the cascade to waiting consumers is an action of module `LinkedMachine`.
- LinkedQueue.LinkedBQ.Drain: one thread has nobody to notify; the notify of waiting producers is an action of module `LinkedMachine`.
- LinkedQueue.LinkedBQ.Dispose: one thread has nobody to notify; both notifies are actions of module `LinkedMachine`.
- ThreadPerTaskHandles.HandleTable.Reap: asks each handle once and takes the answers from a function; answers that change while the loop runs are covered by the machine's `Reap` action.
- Executors.Pool.Dispose: runs the workers one after the other and only while it joins them; their interleavings are the subject of module `ThreadPool`.
- Executors.Pool.WorkerThreadProc: runs the workers of the pool one after the other; their interleavings are the subject of module `ThreadPool`.
- The control actions of the four `System` classes and of `PerTaskPool` have no rows of their own; `Step` and `Execute` speak for them.
- PoolOverLinked.EveryJobRunsOnce: nobody but the workers takes jobs, and workers and clients call nothing else on the queue; what others may take is modelled in `ThreadPool` alone.  The same composition with ArrayBQ is not spelled out; `ArrayQueueIsStrict` and `ArrayTheorems.RunRefines` are what it would rest on.
- Jobs that call back into their own ThreadPerTaskPool: a worker's row does not submit.  Jobs that use a ThreadPool's queue count as outside users of it.
- FutexSemaphore.ReleaseMustFit: assumes at most 0x7FFFFFFF awake candidates and owed wakes; without that bound they might cover an excess, which `ReleaseKeepsCoverage` accounts for.
- LinkedLimits.TryPopCanBeTrusted: starts from an empty queue; `TryPopAfterDisposeIsFinal` holds for any contents.
- LinkedTheorems.ErrorsAreAnnounced: does not announce the error of try_pop itself as an event of the FIFO, since it may be wrong about the queue; it is decided by a later load, as stated.
