# Verification of the heap allocator, the thread library and its programs

This Dafny project models the hard parts of a systems-course repository and proves what they promise:

- **the implicit free-list allocator** of `a5/5.5/implicit.c`: an array of words carrying boundary tags, kept
  equal to a ghost sequence of blocks;
- **the uthreads library** of `a10/uthreads`: its shared-link thread queues, ready queue with sleeping processors,
  context switch, join and detach, reader/writer mutex, condition variables and two semaphore algorithms;
- **the programs on top of it**: ordered dining philosophers, producers and consumers over a ring and over a
  counted pool, cigarette smokers, the one-lane street, and tiled relaxation between barriers.

`dafny verify dfyconfig.toml` checks everything.

## How it is built

State that the C code updates in place is a class (`Heap`, `Queue`, `ReadyQueue`, `UthreadMutex`, `UthreadSem`,
`UthreadTcb`, `ForkCell`, `Ring`, `Pool`, `SquareMatrix`, `Table`, `StreetCell`). Each method equates the new
state with a specification function of the old one, and a protocol that has the same state steps by the same functions.
What such a function means is stated apart from it: by the method, on the fields and cells it writes, and by lemmas that
say what a step does to the threads (`RwMutex.SignalWakesFirst`, `Scheduler.YieldedIsReady`,
`TrafficHistory.ExitMeaning` and others).  What a program counts is compared with a history read off its run
(`TrafficHistory.EveryBinCounts`, `ProducerConsumer.EveryBinCounts`, `Philosophers.EverybodyEats`).

A protocol is a step system (`At`, `Do`, `Next`): every section under a spinlock, or every turn under a monitor
lock, is one step, and any number of threads interleave in any order. A theorem about a protocol speaks of every
run (`Runs.IsRun`) and so of every interleaving; "a run that cannot go on" is one whose last state has no step
(`Runs.IsStuck`). Sizes, capacities, round counts and numbers of threads are parameters.

| file | modules |
|---|---|
| `Common.dfy`, `Runs.dfy`, `Sums.dfy` | shared notions, runs and their measures, sums |
| `BlockLayout.dfy`, `ImplicitHeap.dfy` | the laws of block layouts; the allocator on memory words |
| `ThreadQueue.dfy`, `Scheduler.dfy`, `Lifecycle.dfy`, `IdleProcessors.dfy` | queues, context switch, join and detach, idle sleep |
| `Monitor.dfy`, `RwMutex.dfy`, `Semaphores.dfy` | the monitor; the mutex and conditions that refine it; semaphores |
| `Philosophers.dfy`, `ProducerConsumer.dfy`, `Smokers.dfy` | the programs |
| `Traffic.dfy`, `TrafficHistory.dfy`, `TrafficProgress.dfy` | the one-lane street: safety; what its turns do and its statistics count; when every car gets across |
| `SquareMatrices.dfy`, `Relaxation.dfy` | the matrix loops; the tile threads between barriers |

Philosophers run on the model of the mutex itself. Producers and consumers, smokers and cars run on `Monitor`, which
`RwMutex.RefinesMonitor` shows the library to be, step for step: a signal is its signal, a broadcast its broadcast, and
a thread that waits on a condition competes for the lock again only after a signal or a
broadcast (`Monitor.NobodyWakesUnsignalled`). `StepIsMonitorSteps` and `TurnIsMonitorSteps` show that each of
their steps is a series of steps of that monitor; for smokers and cars one step is a whole turn, from taking the lock
to waiting or leaving.

## Where the code does not do what it promises

Each of these comes with the exact condition under which the code is right, and with what goes wrong otherwise.

- **A thread can run on two processors at once.** After a switch, `uthread_switch` looks at the state of the thread
  it left (`a10/uthreads/uthread.c:544-556`) without any lock. A thread that blocked may by then have been woken,
  run elsewhere and yielded; both processors then see it runnable and both enqueue it. `Scheduler.SafeExactlyWhenSound`
  proves that single execution and single queueing hold, and no thread is lost, in every run exactly when there is one
  processor, or nobody yields, or nobody blocks; threads may exit at any time.
- **A control block can be freed too early** by the same late look. `Lifecycle.GoodExactlyWhenSound` proves that it
  is freed once and never touched afterwards exactly when there is one processor or the thread never blocks; otherwise
  it can be freed twice (`Lifecycle.FreedTwice`).
- **`uthread_enqueue` does not see a thread that is last on another queue.** `ThreadQueue.Queue.Enqueue` works exactly
  when no other queue holds the thread; `GuardMeaning` says what its test detects, and `QueuedTwice` ends with one thread
  on two queues.
- **The allocator's size computation overflows** for requests above `MAX_REQUEST`, exactly
  (`ImplicitHeap.SizeHoldsRequest`). `MyMalloc` then fails to hold the request, and for all but the three largest
  requests would write its tags outside the block it found.
- **The agent does not wait for the helpers**, although its comment says it waits for all other threads.
  `Smokers.CompletesExactlyWhenHelpersWait` gives the condition and `Smokers.SomeRunHangs` a run that never ends a round.
- **A car can wait for ever at an empty street.** `TrafficProgress.NobodyIsStrandedExactlyWhen` proves that all cars are
  sure to get across exactly when there is nothing to do, or the street admits somebody and there are at most two cars
  or all go the same way. The program's own twenty cars are sure to get across only if chance sends them all one way.

## Model

| member | source | states |
|---|---|---|
| ImplicitHeap.SizeHoldsRequest | a5/5.5/implicit.c:131-139 | with C's 32-bit conversions the computed size is a multiple of the word that exceeds request and tags by less than a word, exactly for requests up to `MAX_REQUEST`; it has no room for the tags exactly for larger ones below the three largest |
| ImplicitHeap.Heap.Readers | a5/5.5/implicit.c:10-25 | at the start of a block the bit tests on its header word give its in-use bit and its size |
| ImplicitHeap.Heap.Ends | a5/5.5/implicit.c:68-106 | following the next block from the start visits every block in turn and ends exactly at the end of the region |
| ImplicitHeap.Heap.PreviousUndoesNext | a5/5.5/implicit.c:68-79 | stepping back undoes stepping forward at every inner boundary |
| ImplicitHeap.Heap.SetBlockHeader | a5/5.5/implicit.c:55-62 | header and trailer get the same tag and no other word changes |
| ImplicitHeap.Heap.constructor | a5/5.5/implicit.c:163-178 | the new heap is one free block that fills the region |
| ImplicitHeap.Heap.Coalesce | a5/5.5/implicit.c:113-123 | two free neighbours become one block, otherwise nothing changes; live payloads keep their words |
| ImplicitHeap.Heap.SplitAndMarkUsed | a5/5.5/implicit.c:150-158 | the block is in use and is split exactly when three words would be left; live payloads keep their words |
| ImplicitHeap.Heap.MyMalloc | a5/5.5/implicit.c:204-214 | for every unsigned request: fails, changing no word, exactly when every block is in use or smaller than the computed size; else, unless that size has overflowed below two tags, allocates in the lowest-addressed free block of that size, and the payload holds the request up to `MAX_REQUEST`; keeps every live payload and the heap invariant |
| ImplicitHeap.Heap.MyFree | a5/5.5/implicit.c:184-197 | frees exactly the block of the payload, joins it with both free neighbours, keeps every other payload and the heap invariant |
| ImplicitHeap.Heap.ClientWrite | a5/5.5/implicit.c:46-62 | a write inside a live payload leaves the block structure that later calls walk |
| BlockLayout.AllocatedPayload | a5/5.5/implicit.c:150-158 | the new payload holds the request, wastes less than three words and is disjoint from every live payload, all of which stay live |
| BlockLayout.AllocatedBlocks | a5/5.5/implicit.c:150-158 | one block in use is added where the free block was, every other keeps its place and size, and the rest becomes a free block exactly when it has three words |
| BlockLayout.FreedLive | a5/5.5/implicit.c:184-197 | freeing ends exactly the payload of the freed block |
| BlockLayout.FreedBlocks | a5/5.5/implicit.c:184-197 | freeing ends exactly that block in use, even one without payload; every other keeps its place and size |
| BlockLayout.FreedCoalesced | a5/5.5/implicit.c:184-197 | after a free no two neighbours are both free |
| BlockLayout.LivePayloadsCarryNoTags | a5/5.5/implicit.c:55-62 | no word of a live payload is a tag, so any write there keeps memory and layout in agreement |
| BlockLayout.EveryRunStaysCoalesced | a5/5.5/implicit.c:163-214 | after any sequence of calls the blocks tile the region with legal sizes and no free neighbours; once nothing is live the heap is the single free block again |
| ThreadQueue.Queue.Enqueue | a10/uthreads/uthread.c:139-150 | the thread is appended unless it seems enqueued; re-enqueueing is a no-op; the queues stay disjoint lists with the thread on this one exactly when no other queue held it |
| ThreadQueue.Queue.Dequeue | a10/uthreads/uthread.c:156-167 | first in, first out; the thread is then on no queue, and no other queue changes |
| ThreadQueue.GuardMeaning | a10/uthreads/uthread.c:140-143 | the enqueue test means membership exactly when the thread is not inside another queue |
| ThreadQueue.QueuedTwice | a10/uthreads/uthread.c:139-150 | the failure: from proper queues, enqueueing the last thread of one queue on another puts it on both |
| MutexObject.UthreadMutex.Lock | a10/uthreads/uthread_mutex_cond.c:57-67 | one pass of the loop: takes the free lock or queues once |
| MutexObject.UthreadMutex.LockReadonly | a10/uthreads/uthread_mutex_cond.c:73-83 | one pass of the loop: reads unless the lock is held or a writer queues |
| MutexObject.UthreadMutex.Unlock | a10/uthreads/uthread_mutex_cond.c:89-110 | gives up the lock and wakes the first writer or, if there is none, all readers in order |
| RwMutex.StepKeepsInv | a10/uthreads/uthread_mutex_cond.c:57-166 | every step of any thread keeps queues, holder, reader count and pending wake-ups consistent |
| RwMutex.LockTakesOrQueues | a10/uthreads/uthread_mutex_cond.c:57-67 | a thread takes the lock exactly when no thread has it and none reads; otherwise it is the last in the queue; nobody else moves |
| RwMutex.ReaderJoinsOrQueues | a10/uthreads/uthread_mutex_cond.c:73-83 | a thread reads exactly when no thread has the lock and no writer queues, however many read already; otherwise it is the last queued reader |
| RwMutex.ReleaseWakes | a10/uthreads/uthread_mutex_cond.c:89-110 | giving up the lock, to go on or to wait, wakes nobody while others read, else exactly the first writer or, if none queues, exactly all queued readers |
| RwMutex.WaiterIsLast | a10/uthreads/uthread_mutex_cond.c:135-141 | a thread that waits joins the end of its condition queue before it gives up the lock |
| RwMutex.SignalWakesFirst | a10/uthreads/uthread_mutex_cond.c:147-154 | a signal takes exactly the first waiter off, which is then on no condition queue and about to test the lock; the others keep their order and place |
| RwMutex.BroadcastWakesAll | a10/uthreads/uthread_mutex_cond.c:160-166 | a broadcast empties the queue and every waiter is about to test the lock; nobody else moves |
| RwMutex.MutualExclusion | a10/uthreads/uthread_mutex_cond.c:57-110 | in every run a holder excludes readers and other holders, `reader_count` is the number of readers, and the assertions of unlock hold |
| RwMutex.NobodyIsStranded | a10/uthreads/uthread_mutex_cond.c:89-110 | while a thread is queued and the lock is free, some woken writer can take it now: no wake-up is lost |
| RwMutex.WritersKeepTheirOrder | a10/uthreads/uthread_mutex_cond.c:57-110 | in every run, as long as a writer queues, those behind it queue behind it: first come, first served |
| RwMutex.TestsAreBounded | a10/uthreads/uthread_mutex_cond.c:57-83 | in every run the repeated tests of the lock are at most the threads times the other steps |
| Monitor.NobodyWakesUnsignalled | a10/uthreads/uthread_mutex_cond.c:135-166 | a waiting thread neither enters nor competes, and stays until the owner signals it, first in its queue, or broadcasts |
| RwMutex.RefinesMonitor | a10/uthreads/uthread_mutex_cond.c:57-166 | every run, seen from outside, is a run of that monitor step for step: a signal is the monitor's signal, a broadcast its broadcast, a wait its wait, and only failed tests, the first half of a wait and the steps of readers are invisible; every thread is in one place |
| RwMutex.MonitorEntryIsPossible | a10/uthreads/uthread_mutex_cond.c:57-67 | when the monitor would let somebody in, some thread of the library can take the lock or, while readers hold it, a reader can give it up |
| SemaphoreObject.UthreadSem.Signal | a10/uthreads/uthread_sem.c:49-58 | the value grows by one and the first waiter, if any, is unblocked; the others keep their order |
| SemaphoreObject.UthreadSem.WaitHandoff | a10/uthreads/uthread_sem.c:64-76 | the value drops and the caller queues when it goes negative |
| SemaphoreObject.UthreadSem.WaitRetest | examples/uthread/uthread_sem.c:64-76 | one pass of the loop: queue, or take a unit |
| HandoffSemaphore.StepRefines | a10/uthreads/uthread_sem.c:49-76 | each step is at most two steps of the counting semaphore; a negative value is minus the queue length, else the queue is empty |
| HandoffSemaphore.WaitMeaning | a10/uthreads/uthread_sem.c:64-76 | a wait is served at once exactly when the value is positive, and otherwise is the last in the queue |
| HandoffSemaphore.SignalServes | a10/uthreads/uthread_sem.c:49-58 | a signal with a negative value serves exactly the first waiter, any other leaves the unit |
| HandoffSemaphore.EveryRunCounts | a10/uthreads/uthread_sem.c:28-76 | in every run the units granted and the units left are exactly the initial value plus the signals |
| RetestSemaphore.StepRefines | examples/uthread/uthread_sem.c:49-76 | the same for the re-testing algorithm, where the value stays non-negative and is at most the woken waiters while anybody queues |
| RetestSemaphore.WaitMeaning | examples/uthread/uthread_sem.c:64-76 | a wait, first or repeated, takes a unit exactly when there is one, and otherwise is the last in the queue |
| RetestSemaphore.SignalWakes | examples/uthread/uthread_sem.c:49-58 | a signal adds a unit and wakes exactly the first waiter |
| RetestSemaphore.UnitsFindTakers | examples/uthread/uthread_sem.c:64-76 | while a unit is left and somebody queues, a woken thread can take it now |
| RetestSemaphore.EveryRunCounts | examples/uthread/uthread_sem.c:28-76 | in every run the units granted and the units left are exactly the initial value plus the signals |
| IdleProcessors.StepKeepsInv | a10/uthreads/uthread.c:195-237 | every step keeps the sleepers counted and no work missed |
| IdleProcessors.QueueIsConserved | a10/uthreads/uthread.c:194-237 | threads join the ready queue at its end and leave it at its front, and no other step changes it |
| IdleProcessors.EveryRunKeepsInv | a10/uthreads/uthread.c:195-237 | in every run, while a processor sleeps unsignalled there are at most as many ready threads as processors on their way to them plus one for an enqueuer about to signal |
| IdleProcessors.WorkIsAttended | a10/uthreads/uthread.c:195-237 | if work is left while a processor sleeps, another processor is on its way to it or about to signal |
| Scheduler.YieldedIsReady | a10/uthreads/uthread.c:553-556 | the look after a switch puts a thread that has yielded behind all ready ones, and changes no queue otherwise |
| Scheduler.StopTakesFirst | a10/uthreads/uthread.c:576-580 | a thread that stops gives way to the first ready thread, or to the base thread exactly when there is none |
| Scheduler.JoinsAtTheEnd | a10/uthreads/uthread.c:139-150 | new threads and waiting threads join the end of their queue |
| Scheduler.UnblockOrder | a10/uthreads/uthread.c:590-592 | unblocking moves the first waiter behind all ready threads |
| Scheduler.SoundIsSafe | a10/uthreads/uthread.c:544-580 | with one processor, or no yields, or no blocking: no thread ever executes twice or is queued twice, even when woken before it parked, and every thread that has not exited is on a queue or dealt with by a processor, so none is lost |
| Scheduler.RaceHappens | a10/uthreads/uthread.c:544-556 | in every other configuration a reachable state has one thread on two processors or twice queued |
| Scheduler.SafeExactlyWhenSound | a10/uthreads/uthread.c:466-470 | both together: the exact condition for every thread to be in one place, not in two and not in none |
| ControlBlock.UthreadTcb.Reap | a10/uthreads/uthread.c:544-552 | a disowned block is freed, any other is marked dead |
| ControlBlock.UthreadTcb.JoinEnd | a10/uthreads/uthread.c:660-667 | the joiner gets the return value, and a dead block is freed, any other disowned |
| ControlBlock.UthreadTcb.Detach | a10/uthreads/uthread.c:677-686 | a dead block is freed, any other disowned |
| Lifecycle.NoLeak | a10/uthreads/uthread.c:544-570 | every run that cannot go on has freed the block exactly once, exactly when there is one processor or the thread never blocks |
| Lifecycle.FreedTwice | a10/uthreads/uthread.c:544-552 | otherwise some run frees it twice |
| Lifecycle.LateLookFrees | a10/uthreads/uthread.c:544-552 | with two processors and a thread that blocked, its block can be freed while it still executes |
| Lifecycle.GoodExactlyWhenSound | a10/uthreads/uthread.c:651-686 | with one join or detach the block is freed exactly once, never touched later, and the joiner gets the returned value, exactly when there is one processor or the thread never blocks |
| Lifecycle.JoinerGetsWhatWasReturned | a10/uthreads/uthread.c:559-567 | in those configurations, whatever value the start procedure returned in a run is the value its joiner gets later in that run |
| ForkObject.ForkCell.GetLocked | a10/phil-ordered.c:38-46 | under the lock: takes a free fork and keeps the lock, or waits |
| ForkObject.ForkCell.PutFork | a10/phil-ordered.c:48-52 | frees the fork, signals and unlocks |
| Philosophers.ForksClimb | a10/phil-ordered.c:54-90 | every philosopher takes its two forks, `id` and the next one around the table, in increasing order |
| Philosophers.ChainClimbs | a10/phil-ordered.c:62-110 | a chain of waiting philosophers climbs in fork number and so ends at one that can move |
| Philosophers.NoDeadlock | a10/phil-ordered.c:62-110 | unless everybody has finished, somebody can move |
| Philosophers.DinnerEnds | a10/phil-ordered.c:62-110 | no run is longer than twenty steps a meal and philosopher |
| Philosophers.EverybodyEats | a10/phil-ordered.c:62-110 | a run that cannot go on has let every philosopher eat exactly `num_meals` times, counted by its eating, and left every fork free |
| Philosophers.NeighboursExclude | a10/phil-ordered.c:38-52 | neighbours never eat at once, and the fork condition is never waited on |
| Philosophers.EaterHasBoth | a10/phil-ordered.c:54-104 | in every run whoever eats holds both its forks, and whoever has put down the right one still holds the left one |
| Philosophers.PutDownMeaning | a10/phil-ordered.c:99-102 | the right fork is put down first; a fork put down is free and unlocked, and no other fork changes |
| BoundedBuffer.RingTests | examples/uthread/examples/bounded-buffer.c:57-88 | the two index tests mean "one place left" and "no item" |
| BoundedBuffer.RingPut | examples/uthread/examples/bounded-buffer.c:57-67 | storing at the tail appends to the sequence the ring stands for, also across the wrap |
| BoundedBuffer.RingTake | examples/uthread/examples/bounded-buffer.c:74-88 | advancing the head removes the first item, also across the wrap |
| BoundedBuffer.Ring.Enqueue | examples/uthread/examples/bounded-buffer.c:57-67 | waits exactly when `QUEUE_SIZE - 1` items are there, else appends |
| BoundedBuffer.Ring.Dequeue | examples/uthread/examples/bounded-buffer.c:74-88 | waits exactly when empty, else takes the oldest item |
| BoundedBuffer.Pool.Produce | examples/uthread/examples/pc_mutex_cond.c:35-51 | waits exactly when full, else adds an item and counts the new number in its own bin of the histogram and in no other |
| BoundedBuffer.Pool.Consume | examples/uthread/examples/pc_mutex_cond.c:53-69 | waits exactly when empty, else removes an item and counts the new number in its own bin and in no other |
| ProducerConsumer.StepKeepsInv | examples/uthread/examples/bounded-buffer.c:57-122 | every step keeps the order of the values, the records, and: while a side waits, every chance of it has a woken thread on its way |
| ProducerConsumer.WaitMeaning | examples/uthread/examples/pc_mutex_cond.c:40-61 | a producer waits exactly while the buffer is full, a consumer exactly while it is empty, each behind its own side's waiters |
| ProducerConsumer.OperateMeaning | examples/uthread/examples/bounded-buffer.c:57-122 | otherwise a producer appends its next numbered value, and a consumer takes the oldest one |
| ProducerConsumer.OperateWakes | examples/uthread/examples/bounded-buffer.c:57-88 | an operation wakes exactly the first waiter of the other side and gives up the lock |
| ProducerConsumer.StepIsMonitorSteps | examples/uthread/examples/bounded-buffer.c:57-88 | every step is a series of steps of the monitor that the library implements |
| ProducerConsumer.FirstInFirstOut | examples/uthread/examples/bounded-buffer.c:57-88 | in every run the values taken are a prefix of those put in, and the rest is in the buffer; waiting consumers imply items at most the woken consumers, and dually |
| ProducerConsumer.EveryBinCounts | examples/uthread/examples/pc_mutex_cond.c:44-65 | in every run bin `n` of the histogram is the number of operations of that run that left exactly `n` items |
| ProducerConsumer.NoDeadlock | examples/uthread/examples/pc_mutex_cond.c:35-69 | with as many producers as consumers, unless all are done somebody can move |
| ProducerConsumer.EveryRunEnds | examples/uthread/examples/bounded-buffer.c:95-122 | no run is longer than ten monitor steps a round and pair |
| ProducerConsumer.EverythingIsConsumed | examples/uthread/examples/pc_mutex_cond.c:71-90 | a run that cannot go on has done all rounds, emptied the buffer in order, and its histogram sums to the operations |
| SquareMatrices.SquareMatrix.Set | examples/uthread/examples/sor.c:18-22 | writes exactly the cell that the indices name, which wrap around at both edges |
| SquareMatrices.SquareMatrix.Get | examples/uthread/examples/sor.c:24-28 | reads the cell that the indices name, which wrap around at both edges |
| SquareMatrices.CellNames | examples/uthread/examples/sor.c:18-28 | rows and columns name the cells of the flat array uniquely |
| SquareMatrices.IterateIsMean | examples/uthread/examples/sor.c:82-116 | each iteration replaces every cell by the truncated mean of nine: its row and the rows next to it, its column and the columns next to it, where the first and the last are next to each other |
| SquareMatrices.IterateWithin | examples/uthread/examples/sor.c:82-95 | no iteration leaves the range of the first matrix |
| SquareMatrices.RelaxOneStep | examples/uthread/examples/sor.c:82-95 | exactly the cells of the tile get their new values, and no other cell changes |
| SquareMatrices.RelaxedTileIsMean | examples/uthread/examples/sor.c:82-95 | that new value is the truncated mean of the nine cells, around the edges too |
| SquareMatrices.MatrixCopy | examples/uthread/examples/sor.c:47-55 | exactly the cells of the tile are copied |
| SquareMatrices.RelaxAlone | examples/uthread/examples/sor.c:105-116 | one thread on the whole matrix computes `Iterate`, the reference result |
| Tiling.TilesPartition | examples/uthread/examples/sor.c:155-163 | for every number of strips, dividing N or not, each cell lies in exactly one tile, its owner's |
| Tiling.LowIsFloor | examples/uthread/examples/sor.c:155-163 | strip `i` begins at the whole part of `i * N / strips`; all are equal when the number divides N |
| Relaxation.SeesOneIteration | examples/uthread/examples/sor.c:105-116 | a relaxing thread reads the same iteration in every cell, whatever the others do meanwhile |
| Relaxation.StepKeepsInv | examples/uthread/examples/sor.c:105-116 | every single access to the shared matrices keeps them at the iterations their owners have reached |
| Relaxation.NoDeadlock | examples/uthread/examples/sor.c:105-116 | nobody is stranded at a barrier |
| Relaxation.SameAsOneThread | examples/uthread/examples/sor.c:105-116 | after each iteration the matrix is that of the single thread, in every interleaving |
| Relaxation.RelaxationEnds | examples/uthread/examples/sor.c:105-116 | a run that cannot go on has finished all iterations with the single thread's matrix |
| Relaxation.EveryRunEnds | examples/uthread/examples/sor.c:105-116 | no run is longer than eleven steps a cell and two a barrier allow |
| TiledRelaxation.ThreadsOwnTheirTiles | examples/uthread/examples/sor.c:155-167 | the threads of `sor` own exactly the cells of their tiles |
| TiledRelaxation.SorComputesIterate | examples/uthread/examples/sor.c:118-182 | every complete multi-threaded run computes what the control run computes |
| SmokersTable.Table.Gather | a10/smoke.c:70-156 | a helper sets its flag and, once a second resource is there, calls the smoker of the one that neither is; case by case for every pair |
| Smokers.StepKeepsInv | a10/smoke.c:70-331 | every turn keeps the phases of a round, the flags and the counts consistent |
| Smokers.RoundIsCounted | a10/smoke.c:286-324 | a round is counted for the smoker whose resource was not offered, and for nobody else |
| Smokers.SmokeIsCounted | a10/smoke.c:205-247 | a called smoker counts one smoke of its own resource, which was not offered, and wakes the helper that waits |
| Smokers.TurnIsMonitorSteps | a10/smoke.c:70-331 | every turn is a series of steps of the monitor that the library implements |
| Smokers.OnlyTheMatchingSmokerSmokes | a10/smoke.c:259-331 | at most one round is outstanding; a smoker is called, and its count of signals is ahead, only if its own resource is neither of the two offered; when the agent leaves all counts agree and sum to the rounds |
| Smokers.StuckMeansLeftOrLost | a10/smoke.c:70-331 | a run that cannot go on has completed all rounds, or lost a signal to a helper that was not waiting |
| Smokers.CompletesExactlyWhenHelpersWait | a10/smoke.c:268-278 | from the first signal on every round is sure to complete exactly when all three helpers wait |
| Smokers.SomeRunHangs | a10/smoke.c:265-272 | from the start some run never completes a round |
| OneLaneStreet.StreetCell.RecordWaitingTime | a11/traffic.c:59-66 | the bin of that time grows by one and no other changes; the overflow grows exactly when there is no such bin |
| OneLaneStreet.StreetCell.TryToEnter | a11/traffic.c:86-111 | one test of the loop: wait behind the queue of the direction, or enter and count the entry in the ticker, in the bin of its waiting time and in the bin of its direction and new count |
| OneLaneStreet.StreetCell.LeaveStreet | a11/traffic.c:116-152 | the direction turns exactly when the street empties and the other side is active, and the signalled cars are the first of the queue of the direction after it |
| Traffic.StepKeepsInv | a11/traffic.c:70-191 | every turn keeps the street, the queues, the active counts and the statistics consistent |
| Traffic.TurnIsMonitorSteps | a11/traffic.c:70-191 | every turn is a series of steps of the monitor that the library implements |
| Traffic.OneWayOnly | a11/traffic.c:70-152 | in every run the cars in the street share its direction, and `count` is their number, at most `MAX_OCCUPANCY` |
| Traffic.TurnsOnlyWhenEmpty | a11/traffic.c:70-152 | the direction changes only while no car stays in the street |
| Traffic.HistogramsAgree | a11/traffic.c:51-111 | both histograms sum to `entryTicker`, no car remembers a later ticker than the present one, and a histogram of the program's size never overflows |
| Traffic.AllGone | a11/traffic.c:156-191 | when all cars are gone every crossing was counted and nobody is left waiting |
| TrafficHistory.EnterMeaning | a11/traffic.c:70-111 | a newcomer to an empty street turns it; a car goes inside exactly when the street goes its way and is not full, and otherwise waits behind all others; no other car moves |
| TrafficHistory.ExitMeaning | a11/traffic.c:116-152 | the street turns exactly when its last car leaves and some car of the other direction is active; then the first `MAX_OCCUPANCY` waiting cars of the new direction wake, otherwise the first one of the old; no other car moves |
| TrafficHistory.EveryBinCounts | a11/traffic.c:51-111 | in every run each bin of waiting times is the number of entries of that run that let exactly so many others pass since the car came, the overflow the number of longer ones, and each occupancy bin the number of entries of that direction that made it so many cars |
| TrafficHistory.EveryCarCrosses | a11/traffic.c:156-191 | in every run no car enters more often than it is to cross, and one that is gone has entered exactly so often |
| TrafficProgress.EveryRunEnds | a11/traffic.c:156-191 | no run is longer than a bound in cars, crossings and `MAX_OCCUPANCY` |
| TrafficProgress.OneWayCompletes | a11/traffic.c:70-152 | cars that all go the same way all get across: while one waits, those inside and those signalled fill the street |
| TrafficProgress.OneEachWayCompletes | a11/traffic.c:70-152 | one car each way both get across: the one that leaves always turns the street to the waiting one and signals it |
| TrafficProgress.SomeCarIsStranded | a11/traffic.c:116-152 | any other cars, with any number of crossings, have a run that cannot go on while a car waits at an empty street |
| TrafficProgress.NobodyIsStrandedExactlyWhen | a11/traffic.c:70-191 | the exact condition under which every run that cannot go on has all cars across and gone |

## Left out

- Registers, stacks and the assembly of the context switch; `sbrk`, `malloc`, printing, sleeping, argument parsing. Random choices are arbitrary choices.
- ImplicitHeap.Heap.MyMalloc: where the size has overflowed below two tags and a block is found, the result says so and the writes outside that block are not modelled.
- ImplicitHeap.Heap.constructor: the region is a multiple of four bytes and at least eight; `sbrk` failure is not modelled.
- The spinlocks themselves: each section they protect is one step. The spin on a running thread is a guarded step.
- SIGALRM handling and the idle wait without sleep; the barrier body is not part of this model, its threads leave when all have arrived.
- Scheduler.SafeExactlyWhenSound: idle sleep has its own model (`IdleProcessors`), and so has the freed memory of a block (`Lifecycle`); joiners wait on a queue like any other waiter; at least two threads.
- IdleProcessors.EveryRunKeepsInv: a safety property; the operating system's fairness in waking sleepers is not modelled.
- HandoffSemaphore.EveryRunCounts: the initial value is not negative, as `a10/uthreads/uthread_sem.h` describes semaphores.
- Philosophers.NoDeadlock: at least two philosophers; one alone would take the same fork twice.
- ProducerConsumer.EveryRunEnds: counts monitor steps; on the library's mutex a woken thread may test the lock and queue again, and `RwMutex.TestsAreBounded` bounds these tests by the other steps.
- `a11/traffic_sem.c`, which does not keep the occupancy bound.
- Relaxation: the sum of nine cells is a mathematical integer; by `IterateWithin` it stays within nine times the range of the first matrix.
- Ticker, histogram, counter and index variables are unbounded integers.
- `a10/phil-rightfork.c`, `a10/phil-random.c`, the disk queues of a9, lists, trees, sorts, reference counts and machine simulators of a5 to a9, and the duplicate copies of the library.
