# Verified models of Pump

Pump is a C++ library of asynchronous pipelines. Senders are flattened into tuples of operations;
values, exceptions, skips and end-of-stream signals are pushed through them; streams are polled
under backpressure. This project models the parts of it that are hard to get right and proves what
they promise:

* **The stream protocols**: `for_each` with `concurrent` and `reduce` as one machine
  (`StreamControl`), `sequential` under `concurrent` and `reduce` (`SequentialDrain`, and how its runs
  end in `SequentialProgress`), the polling loop under arbitrary pollers (`PollLoop`), and the packed
  atomic words underneath them (`Backpressure`, `CompletionCounter`, `PollToken`).
* **The queues**: the multi-producer ring with unbounded tickets (`TicketRing`) and as compiled for
  32 bits (`TicketWrap`), the single-producer ring with cached indices (`SpscRing`), the local ring
  (`LocalQueue`), the per-core group with its activity bitmap (`PerCoreQueue`, `BitMask`), and the
  three hard protocols of the bundled moodycamel queues (`FreeList`, `OptimisticDequeue`, `BlockRing`
  and, for the room it promises, `BlockRoom`). What their calls return, whatever happens between their
  accesses, and that they end, is in `TicketCalls`, `PerCoreCalls`, `FreeListCalls`, `OptimisticCalls`
  and `BlockCalls`.
* **`when_any`** (`RaceWrapper`) and the **NVMe read-merge table** (`ReadMerge`).
* **The execution machine**: scopes, jumps and the try blocks left open on the stack against a
  recursive meaning of senders (`OpMachine`), and the static matching of pushed and popped contexts
  against the runtime stack (`ContextMatching`).

## How the models are built

A lock-free protocol is a machine with a finite but arbitrary number of processes. A process has a
program counter; a step is one atomic load, store or read-modify-write of the code, or one piece of
code that no other process can see. A run is any sequence of states in which each follows from the
last by one process's step. Invariants are proved for the initial state and every step, and the main
results hold at every point of every run. History (what was pushed, claimed, folded, freed) is
recorded in the state; no branch, and nothing that is stored or returned, depends on it. (The reader-writer
queue's `Empty` result notes, for the record, whether the queue was empty.)

Assumptions that all of them share:

* memory is sequentially consistent;
* a retry of a compare-exchange loop that finds the word changed, or a weak exchange that fails
  spuriously and leads back to the same point, is a stutter and is not a separate step; where the retry
  goes elsewhere (`TicketRing`, `TicketWrap`) it is modelled, and the classes `Backpressure.Starter`
  and `PollToken.Runner` prove the loops themselves under arbitrary interference between attempts;
* user functions, the outcome of an element, SPDK and allocation are parameters or choices.

Counting arguments ("how many processes hold the token") are sums of a weight over the processes
(`Sums`); ring positions are running counts compared modulo the size (`RingCells`, and
`BitMask.MaskIsCell` for the mask the code uses).

Assumptions of single modules: streams are shorter than 2^32 - 1 (`StreamControl`, `SequentialDrain`);
the limit of `concurrent` is at most 2^64 - 2, which `StreamControl.DeliversUnlessLimitWraps` shows to be
exactly what the code serves; ring capacities are at least 2 (`TicketRing`) and divide 2^31
(`TicketWrap`); fewer than 2^31 - 2 threads use one free list.

Where the code differs from its comments or documentation, or from what it means to do, the model follows
the code, and a lemma says exactly when it does what is meant:

* `sequential` ignores the result of its enqueue, so an item that arrives when the cache is full is
  lost. No interleaving loses an item if and only if the whole stream fits into the cache
  (`SequentialDrain.LosesNothingIffFits`).
* A drainer of `sequential` re-checks cache and state word after it has given its right away, when the
  stream's scope may be gone: delivery is the last access on every run if and only if nothing ever goes
  downstream (`SequentialProgress.DeliveryIsLastIff`).
* A drainer of `sequential` that finds the head ticket claimed but not yet published goes round idle and
  busy without rest, so runs are bounded only for fewer than two producers or no room
  (`SequentialProgress.BoundedIff`); every run can still be completed (`SequentialProgress.CanAlwaysDeliver`).
* `then` and `any_exception` keep their try blocks open around everything downstream, so an exception that
  a handler lets escape is caught by an operation far upstream, even one of a sender whose scope has been
  released (`OpMachine.CaughtUpstream`, `OpMachine.CrashesInReleasedScope`). Pipelines mean what they are
  meant to mean if and only if no handler of skips throws and recovery handlers throw nothing but
  `std::exception` (`OpMachine.MachineIsMeaning`).
* A reader-writer queue constructed for 0 elements gets a block of one slot; it is still one FIFO queue, but
  an assertion of the consumer fails on it. For 2^63 elements or more the size wraps and the block gets no
  slot at all; on every other queue the assertions hold (`BlockRing.AssertionsHoldUnlessZero`).
* A thread that holds a position of the ring for more than 2^31 - capacity tickets and then moves may find an
  empty ring full (`TicketWrap.AgreesIffWithin`).
* `for_each`'s loop alone announces the end once for every time it gives the token back because the range is
  used up (`PollLoop.EndAnnounced`); that it happens once is a property of `concurrent`'s permits
  (`StreamControl.StreamSafety`).
* `start` ignores whether it got the token; on every run it does get it (`StreamControl.StartGetsToken`).

## Model

| member | source | states |
|---|---|---|
| StreamControl.StepKeepsInv | src/pump/sender/for_each.hh:401-450 | every step of the composed stream machine, by any process, keeps the invariant that ties token, permits, backpressure word, iterator, fold history and completion counter together |
| StreamControl.StreamSafety | src/pump/sender/concurrent.hh:354-400 | in every interleaving: range order, each element once, one process in the loop and never recursively, at most `max` outstanding, one announcement with the true length, one delivery after N distinct folds |
| StreamControl.OnePermit | src/pump/sender/concurrent.hh:427-508 | wait minus done is in [-1, max], and exactly one poll permit is out while there is room and the stream goes on, otherwise none |
| StreamControl.FewOutstanding | src/pump/sender/concurrent.hh:138-184 | the packed balance bounds the elements in flight by the limit |
| StreamControl.DoneIsLast | src/pump/sender/reduce.hh:319-350 | while anybody can still move nothing was delivered, and whoever is about to deliver is alone |
| StreamControl.QuiescentIsDone | src/pump/sender/reduce.hh:319-350 | a state in which nothing can move has pushed, folded, announced and delivered everything: no lost wakeup |
| StreamControl.StepDescends | src/pump/sender/for_each.hh:401-450 | every step uses up some of a bounded measure |
| StreamControl.RunLength | src/pump/sender/for_each.hh:401-450 | every run ends within 100 N + 59 states |
| StreamControl.StartGetsToken | src/pump/sender/for_each.hh:427-450 | whenever a run comes to the start's request, for every limit, the word is zero and the token is granted |
| StreamControl.DeliversUnlessLimitWraps | src/pump/sender/concurrent.hh:162-184 | for every range and every limit: each run that comes to a stop has delivered, if and only if the limit is not 2^64 - 1 or the range is empty |
| StreamControl.EarlyResultStalls | src/pump/sender/concurrent.hh:162-184 | the run on which an early result makes the comparison wrap: one element pushed, nothing announced, nothing can move |
| Backpressure.SubPendingMeaning | src/pump/sender/concurrent.hh:138-160 | a result lowers the balance by one, and the two answers compare old and new balance with the limit |
| Backpressure.AddPendingMeaning | src/pump/sender/concurrent.hh:162-184 | an element raises the balance by one, with the two answers, also when its result came first |
| Backpressure.AddAfterEarlyResult | src/pump/sender/concurrent.hh:162-184 | the limits for which an early result still reports room: all but 2^64 - 1 |
| Backpressure.Starter.SubNowPendingAndCheck | src/pump/sender/concurrent.hh:138-160 | under any interference between attempts the loop's one successful exchange is the update of the value it saw |
| Backpressure.Starter.AddNowPendingAndCheck | src/pump/sender/concurrent.hh:162-184 | likewise for handing out |
| CompletionCounter.SetTotalMeaning | src/pump/sender/concurrent.hh:18-54 | announcing the length leaves the done half alone |
| CompletionCounter.AddDoneMeaning | src/pump/sender/concurrent.hh:18-54 | finishing leaves the length half alone and hits exactly when the known length is reached |
| CompletionCounter.Counter.SetTotal | src/pump/sender/concurrent.hh:18-54 | fixes the announced length, leaves the number finished alone, and answers whether all had finished before |
| CompletionCounter.Counter.AddDone | src/pump/sender/concurrent.hh:18-54 | one more is finished, the length stays, and the answer is whether the announced length is now reached |
| PollToken.AcquireMeaning | src/pump/sender/for_each.hh:87-112 | a poll is always counted and granted exactly when the token was free |
| PollToken.ConsumeMeaning | src/pump/sender/for_each.hh:117-138 | the holder goes on while requests remain; the last one leaves the zero word |
| PollToken.Runner.TryAcquireForPoll | src/pump/sender/for_each.hh:87-112 | the loop under any interference performs one acquisition on a value the word had |
| PollToken.Runner.ConsumeAndContinue | src/pump/sender/for_each.hh:117-138 | likewise for consumption |
| PollToken.Runner.PollNext | src/pump/sender/for_each.hh:401-425 | on one thread, with any number of polls from inside the pushes, the loop pushes a contiguous piece of the range, stops where the request count says, and frees the token |
| PollToken.StopsWhenServed | src/pump/sender/for_each.hh:401-425 | it stops at the first element by which as many were pushed as requested, or at the end with requests left over |
| PollLoop.MovesKeepsInv | src/pump/sender/for_each.hh:401-425 | every step of any poller keeps the accounting of requests |
| PollLoop.TokenIsLock | src/pump/sender/for_each.hh:87-143 | mutual exclusion over the iterator for any number of pollers, free token iff nobody in the loop, nothing pending on a free token, no recursion, range order |
| PollLoop.PendingIsAcceptedMinusServed | src/pump/sender/for_each.hh:87-143 | pending is accepted minus served, and less what the end dropped, which it does only when the range is used up |
| PollLoop.EveryRequestServed | src/pump/sender/for_each.hh:401-425 | whenever the loop is empty, as many elements went out as were requested, up to the length; the end came iff more were requested |
| PollLoop.EndAnnounced | src/pump/sender/for_each.hh:415-419 | announcements made and under way are as many as the times the token was given back because the range was used up, each has the true length, and there are no more than surplus requests |
| PollLoop.PollEnds | src/pump/sender/for_each.hh:401-425 | from any point of a call, with any requests pending, a poller left alone returns, and what it announces on the way is the length, once, exactly if it meets the end |
| PollLoop.PollAlone | src/pump/sender/for_each.hh:401-450 | a poll that nobody disturbs pushes the next element and announces nothing, or, the range being used up, announces its length |
| SequentialDrain.StepKeepsInv | src/pump/sender/sequential.hh:300-381 | every step of producers, drainers, pollers and the length announcer keeps the push-right invariant |
| SequentialDrain.SequentialSafety | src/pump/sender/sequential.hh:300-412 | at most one holder of the push right, one process in the drain loop, items folded in ticket order and once, state BUSY or DONE iff the right is held or requested |
| SequentialDrain.DoneOnce | src/pump/sender/sequential.hh:337-363 | push_done at most once, in the terminal state, after all tickets |
| SequentialDrain.NoLostWakeup | src/pump/sender/sequential.hh:364-381 | IDLE with a non-empty cache means somebody is about to look; a state that cannot move has folded everything and pushed done |
| SequentialDrain.LosesNothingIffFits | src/pump/sender/sequential.hh:397-412 | no interleaving of a stream of n elements loses an item if and only if n is at most the capacity |
| SequentialDrain.AllFolded | src/pump/sender/sequential.hh:397-412 | a stream that fits into the cache has, when push_done goes out, been folded whole and each element once |
| SequentialProgress.StepDescends | src/pump/sender/sequential.hh:300-412 | no step of any process raises a measure, and every step lowers it that is not taken while the head ticket is claimed and unpublished, or that a process takes only once |
| SequentialProgress.FewFreeSteps | src/pump/sender/sequential.hh:322-383 | in a run of any length only a number of steps quadratic in the stream is taken while nobody waits for a publication |
| SequentialProgress.CanAlwaysDeliver | src/pump/sender/sequential.hh:337-363 | every run can be continued to one that has pushed done after everything that got into the cache, and that has stopped |
| SequentialProgress.Spins | src/pump/sender/sequential.hh:322-383 | from any state in which a drainer dequeues while the head ticket is unpublished, six of its steps lead back to the same state |
| SequentialProgress.BoundedIff | src/pump/sender/sequential.hh:322-383 | the lengths of a stream's runs are bounded if and only if it has fewer than two producers or the cache has no room |
| SequentialProgress.OnlyRecheckersRemain | src/pump/sender/sequential.hh:364-381 | after push_done whoever can still move is a downstream completion between its exchange to IDLE and the end of its re-check |
| SequentialProgress.LastAccessIff | src/pump/sender/sequential.hh:354-381 | the step that pushes done is the last access of all if and only if nobody is re-checking when it is taken |
| SequentialProgress.DeliveryIsLastIff | src/pump/sender/sequential.hh:354-381 | push_done is the last access on every run if and only if there is no producer or no room, so that nothing goes downstream |
| SequentialProgress.DeliveredTooEarly | src/pump/sender/sequential.hh:354-381 | for every other stream, the run in which the first item's completion has yet to look at the cache when push_done has gone out |
| FreeList.MovesKeepsInv | 3rd/moodycamel/concurrentqueue.h:1460-1539 | every atomic step keeps the per-node accounting of references, list membership and the SHOULD_BE_ON_FREELIST mark |
| FreeList.FreeListSafety | 3rd/moodycamel/concurrentqueue.h:1474-1515 | the chain is duplicate-free and ends, owned nodes are not on it, the assertion holds, and between two returns of a node there is an add of it |
| FreeList.NoNodeLost | 3rd/moodycamel/concurrentqueue.h:1460-1539 | a node is owned, listed or held by a thread, and with all threads idle owned or listed |
| FreeList.LastHolderAdds | 3rd/moodycamel/concurrentqueue.h:1503-1508 | a thread goes on to re-add a node iff the node is marked, nowhere else, and this is its last reference |
| FreeListCalls.GetCall | 3rd/moodycamel/concurrentqueue.h:1474-1515 | try_get, whatever the others do, returns a node it has just taken over from the list, or nothing, and then the list was empty at some point of the call |
| FreeListCalls.CallEnds | 3rd/moodycamel/concurrentqueue.h:1460-1539 | undisturbed, any call ends, wherever it had been interrupted |
| FreeListCalls.GetAlone | 3rd/moodycamel/concurrentqueue.h:1474-1515 | undisturbed, try_get takes the first node of the list within six steps, or finds it empty |
| FreeListCalls.AddAlone | 3rd/moodycamel/concurrentqueue.h:1460-1472 | undisturbed, add puts the node at the head of the list within five steps, unless somebody holds a reference; then it leaves the mark for the last holder |
| OptimisticDequeue.CircularCompare | 3rd/moodycamel/concurrentqueue.h:477-483 | within 2^63 the wrapped comparison is the true one except at exactly -2^63 |
| OptimisticDequeue.GrantsBelowTail | 3rd/moodycamel/concurrentqueue.h:1956-2053 | reservations, however interleaved with give-backs, are never granted more than the tail in sum |
| OptimisticDequeue.NeverOvertakes | 3rd/moodycamel/concurrentqueue.h:1956-2053 | headIndex never passes tailIndex, every claimed index is built, and belongs to one consumer |
| OptimisticDequeue.SettledCountsAgree | 3rd/moodycamel/concurrentqueue.h:2249-2339 | with no consumer between its reservation and its claim the counters agree with headIndex, so that overcommits strand nothing |
| OptimisticCalls.DequeueIsWaitFree | 3rd/moodycamel/concurrentqueue.h:1956-2053 | a dequeue has returned after eight accesses of its own, whatever the others do in between |
| OptimisticCalls.DequeueCall | 3rd/moodycamel/concurrentqueue.h:2249-2339 | a dequeue of at most m claims at most m indices, exactly those it reads, and reads only if it got some |
| OptimisticCalls.UndisturbedDequeue | 3rd/moodycamel/concurrentqueue.h:2249-2339 | if no other consumer is between reserving and claiming meanwhile, a dequeue of at most m claims the next m indices, or as many as were published when it began and perhaps some published since; so it gives up only on an empty queue |
| BlockRing.MovesKeepsInv | 3rd/moodycamel/readerwriterqueue.h:535-644 | every access of producer or consumer keeps the ring of blocks in order |
| BlockRing.RefinesFifo | 3rd/moodycamel/readerwriterqueue.h:285-376 | for every block size, one slot included: each step of a run leaves one unbounded FIFO queue as it is, appends, or takes its first element and returns it; the blocks in ring order are that queue |
| BlockRing.AssertionsHold | 3rd/moodycamel/readerwriterqueue.h:345-351 | the next block is non-empty for the consumer and empty for the producer whenever the code asserts it, on every run, if and only if blocks have at least two slots |
| BlockRing.AssertionsHoldUnlessZero | 3rd/moodycamel/readerwriterqueue.h:105-146 | in terms of the size_t the constructor is called with: below 2^63, and only there, it makes a ring, and the assertions hold on every run of it if and only if the size is not 0 |
| BlockRing.OneSlotRun | 3rd/moodycamel/readerwriterqueue.h:345-351 | the run on a queue constructed for 0 elements in which the consumer's assertion fails |
| BlockRing.EmptyWasEmpty | 3rd/moodycamel/readerwriterqueue.h:308-332 | a false result means the queue was empty when the front block's tail was loaded |
| BlockRing.RefusedWhenRoundFull | 3rd/moodycamel/readerwriterqueue.h:572-636 | an enqueue without allocation is refused only when the blocks have come full circle |
| BlockRoom.RoomForSize | 3rd/moodycamel/readerwriterqueue.h:99-135 | on every run of a queue constructed for `size` elements, below 2^63, an enqueue fails or allocates only if at some point of the call the queue held `size` elements or more |
| BlockCalls.EnqueueCall | 3rd/moodycamel/readerwriterqueue.h:535-644 | an enqueue that returns true has appended its element and nothing else; one that returns false has appended nothing |
| BlockCalls.DequeueCall | 3rd/moodycamel/readerwriterqueue.h:285-376 | a dequeue returns the one element taken since it began, or false with none taken, and then the queue was empty at some point of the call |
| BlockCalls.EnqueueDescends | 3rd/moodycamel/readerwriterqueue.h:535-644 | an enqueue never waits: it returns within seven accesses of its own, whatever the consumer does |
| BlockCalls.DequeueDescends | 3rd/moodycamel/readerwriterqueue.h:285-376 | a dequeue never waits: it returns within nine accesses of its own, whatever the producer does |
| BlockCalls.EnqueueAlone | 3rd/moodycamel/readerwriterqueue.h:535-644 | undisturbed, an enqueue appends its element, unless the tail block is full, the front block comes next and it may not allocate |
| BlockCalls.DequeueAlone | 3rd/moodycamel/readerwriterqueue.h:285-376 | undisturbed, a dequeue takes the first element, or finds the queue empty |
| BlockCalls.TakesCached | 3rd/moodycamel/readerwriterqueue.h:308-332 | while the local tail of the front block shows an element, a dequeue takes it without loading the tail |
| TicketRing.MovesKeepsInv | src/pump/core/lock_free_queue.hh:70-120 | every step of any producer or consumer, spurious failures included, keeps each cell serving one ticket |
| TicketRing.BoundedFifo | src/pump/core/lock_free_queue.hh:70-120 | tail minus head within capacity, every outstanding item in its cell or its writer's hands, each dequeued ticket has its one reader and exactly the item enqueued under it |
| TicketRing.NoOverwrite | src/pump/core/lock_free_queue.hh:70-120 | a cell being written is never one that is being read or written by another |
| TicketRing.FullIsFull | src/pump/core/lock_free_queue.hh:79-84 | where the sequence test answers full, tail has not moved and the ticket one capacity back is not yet freed |
| TicketRing.EmptyIsEmpty | src/pump/core/lock_free_queue.hh:111-116 | where the sequence test answers empty, head has not moved and its ticket is not yet published |
| TicketCalls.FalseIsTrue | src/pump/core/lock_free_queue.hh:70-120 | whatever step of a run takes a thread to a false result: at that step there is no room, or nothing to take |
| TicketCalls.EnqueueOnce | src/pump/core/lock_free_queue.hh:70-92 | a true try_enqueue(v) has claimed one ticket since it began, under which v was enqueued and is in its cell; a false one has claimed none |
| TicketCalls.DequeueOnce | src/pump/core/lock_free_queue.hh:97-120 | a try_dequeue that returns a value has claimed one ticket since it began, and the value is what was enqueued under it; one that returns none has claimed none |
| TicketCalls.EnqueueAlone | src/pump/core/lock_free_queue.hh:70-92 | undisturbed, try_enqueue returns within five steps, false exactly if there is no room |
| TicketCalls.DequeueAlone | src/pump/core/lock_free_queue.hh:97-120 | undisturbed, try_dequeue returns within five steps, with nothing exactly if nothing is there, otherwise with the head ticket's item |
| TicketWrap.DifferenceExact | src/pump/core/lock_free_queue.hh:74-76 | the signed 32-bit difference is the true one iff that lies within half the range |
| TicketWrap.StepAgrees | src/pump/core/lock_free_queue.hh:70-120 | a 32-bit step and the unbounded step make the same branch and the same exchange while no position lags by more than 2^31 - capacity |
| TicketWrap.WrappedRingAgrees | src/pump/core/lock_free_queue.hh:70-120 | for every schedule in which no thread moves with a position more than 2^31 - capacity tickets old, the 32-bit ring passes through the wrapped states of the unbounded one |
| TicketWrap.OneBeyondDiffers | src/pump/core/lock_free_queue.hh:70-120 | for every capacity and any two threads or more, the schedule on which one thread reads the tail, 2^31 - capacity + 1 elements pass through the ring, and that thread's next step finds the empty ring full in 32 bits and goes on in the unbounded ring |
| TicketWrap.AgreesIffWithin | src/pump/core/lock_free_queue.hh:70-120 | the 32-bit ring follows every schedule on which nobody moves with a position more than a given number of tickets old, if and only if that number is at most 2^31 - capacity or there is no second thread |
| SpscRing.RefinesBoundedFifo | src/pump/core/lock_free_queue.hh:316-349 | one FIFO queue of capacity - 1, caches behind but never past the true index |
| SpscRing.FalseMeansFullOrEmpty | src/pump/core/lock_free_queue.hh:319-344 | a false result at the refreshing load iff truly full, or truly empty |
| SpscRing.NoUnreadOverwritten | src/pump/core/lock_free_queue.hh:323-324 | the slot being written holds no unread element |
| SpscRing.EnqueueCall | src/pump/core/lock_free_queue.hh:316-330 | a try_enqueue returns true with its value and no other appended since it began, or false with none, and then the ring was full at its last step |
| SpscRing.DequeueCall | src/pump/core/lock_free_queue.hh:334-349 | a try_dequeue returns the one value taken since it began, or none, and then the ring was empty at its last step |
| SpscRing.EnqueueAlone | src/pump/core/lock_free_queue.hh:316-330 | undisturbed, try_enqueue returns within four steps, false exactly if the ring holds capacity - 1 elements |
| SpscRing.DequeueAlone | src/pump/core/lock_free_queue.hh:334-349 | undisturbed, try_dequeue returns within four steps, with nothing exactly if the ring is empty, otherwise with the first element |
| SpscRing.AppendsCached | src/pump/core/lock_free_queue.hh:316-330 | while the cached head shows room, try_enqueue succeeds without loading the head |
| SpscRing.TakesCached | src/pump/core/lock_free_queue.hh:334-349 | while the cached tail shows an element, try_dequeue takes it without loading the tail |
| LocalQueue.Queue.TryEnqueue | src/pump/core/lock_free_queue.hh:241-247 | appends, or refuses exactly at capacity - 1 elements and changes nothing |
| LocalQueue.Queue.TryDequeue | src/pump/core/lock_free_queue.hh:261-266 | takes the first element, or fails exactly on an empty queue |
| BitMask.ClearLowest | src/pump/core/lock_free_queue.hh:446-449 | `mask & (mask - 1)` clears the lowest set bit and no other |
| BitMask.OrSets | src/pump/core/lock_free_queue.hh:415-417 | fetch_or of one bit sets it and no other |
| BitMask.WalkBits | src/pump/core/lock_free_queue.hh:445-455 | the walk visits each set bit once, ascending, and nothing else |
| BitMask.MaskIsCell | src/pump/core/lock_free_queue.hh:73-73 | for a power of two, `pos & (capacity - 1)` is the position's cell |
| PerCoreQueue.MovesKeepsInv | src/pump/core/lock_free_queue.hh:402-479 | every step of producers, drain and try_dequeue keeps non-empty queues known |
| PerCoreQueue.NoLostWakeup | src/pump/core/lock_free_queue.hh:414-458 | a non-empty queue is marked, in the drainer's hands, or its producer is about to mark it |
| PerCoreQueue.PerSourceOrder | src/pump/core/lock_free_queue.hh:433-458 | items come out once and in the order of their core |
| PerCoreQueue.DrainHandlesDue | src/pump/core/lock_free_queue.hh:433-458 | a drain hands over everything that was in a queue when it began, if the producer's call had finished |
| PerCoreCalls.GotIsFirst | src/pump/core/lock_free_queue.hh:460-478 | on every run, what try_dequeue returns is the first element of one queue, which that queue has lost to it |
| PerCoreCalls.NothingWasThere | src/pump/core/lock_free_queue.hh:460-478 | try_dequeue returns nothing only if each queue was empty when it began, or its producer had yet to set the bit |
| PerCoreCalls.PutCall | src/pump/core/lock_free_queue.hh:402-430 | a try_enqueue returns true with its value and no other added to its queue, or false with none, and then the queue had no room at its last step |
| PerCoreCalls.PutAlone | src/pump/core/lock_free_queue.hh:402-430 | a call that finds room adds the value and marks the queue in two steps; one that finds none changes nothing |
| PerCoreCalls.DrainEnds | src/pump/core/lock_free_queue.hh:433-458 | undisturbed, a drain comes to its end, with every mark taken |
| PerCoreCalls.TryEnds | src/pump/core/lock_free_queue.hh:460-478 | undisturbed, a try_dequeue comes to its end |
| RaceWrapper.WordMeaning | src/pump/sender/when_any.hh:81-90 | three flags and a reference count in one word do not disturb each other |
| RaceWrapper.StepKeepsInv | src/pump/sender/when_any.hh:122-206 | every step of branches and starter keeps who holds the push and the references |
| RaceWrapper.OnePushOneDelete | src/pump/sender/when_any.hh:134-160 | at most one push, after all branches are submitted; at most one delete, after the push returned |
| RaceWrapper.FirstFinisherWins | src/pump/sender/when_any.hh:162-206 | the index pushed is that of the branch that set FINISHED first, and the result is what it ended with: its value as a value, its error as an exception, and the empty alternative for a skip or done |
| RaceWrapper.NoUseAfterDelete | src/pump/sender/when_any.hh:122-129 | who has anything left to do on the wrapper keeps it alive |
| RaceWrapper.DeleteOnce | src/pump/sender/when_any.hh:122-129 | two processes never both come to the delete |
| RaceWrapper.QuiescentIsComplete | src/pump/sender/when_any.hh:303-310 | when nothing can move the result has been pushed and the wrapper deleted |
| RaceWrapper.RunLength | src/pump/sender/when_any.hh:303-310 | any race ends within nine steps for each branch and six for the starter |
| ReadMerge.MergeTable.Find | src/env/scheduler/nvme/scheduler.hh:49-60 | eight probes find a slot for the page whenever any slot of the whole table is in use for it |
| ReadMerge.MergeTable.Insert | src/env/scheduler/nvme/scheduler.hh:62-77 | takes the first free slot of the window or none, and every slot stays findable |
| ReadMerge.MergeTable.AddWaiter | src/env/scheduler/nvme/scheduler.hh:79-86 | appends unless sixteen wait already |
| ReadMerge.MergeTable.Erase | src/env/scheduler/nvme/scheduler.hh:88-92 | leaves a tombstone, so that other searches reach as far as before |
| ReadMerge.Scheduler.OnGetDataDone | src/env/scheduler/nvme/scheduler.hh:129-162 | answers one slot's waiters and the read with the outcome, and keeps slots covered by reads |
| ReadMerge.Scheduler.SpdkGet | src/env/scheduler/nvme/scheduler.hh:164-183 | a read is in flight, or refused and answered as failed with its waiters |
| ReadMerge.Scheduler.HandleOne | src/env/scheduler/nvme/scheduler.hh:415-437 | if the first slot its search meets that is in use for the page has fewer than sixteen waiters, a request waits there and nothing is read; otherwise the read is in flight, its page registered as long as the window has a free slot, or it is refused and answered as failed |
| ReadMerge.Scheduler.HandleGetQueue | src/env/scheduler/nvme/scheduler.hh:414-442 | takes requests in order until none is left or more reads are in use than the queue pair is deep, none at all if that was so, keeping all of the above |
| ReadMerge.CompletionKeeps | src/env/scheduler/nvme/scheduler.hh:143-161 | a completion takes one read and at most one slot of its page, and moves its waiters to the answered |
| ReadMerge.NoWaiterStranded | src/env/scheduler/nvme/scheduler.hh:27-96 | a slot in use always has a read of its page in flight, whatever fills up or repeats |
| ReadMerge.AllAnswered | src/env/scheduler/nvme/scheduler.hh:129-162 | with nothing in flight or queued every request was answered as often as received |
| ReadMerge.NeverAnsweredTwice | src/env/scheduler/nvme/scheduler.hh:129-162 | no request is answered more often than received, and only with the outcome of a read of its page |
| OpMachine.Simulates | src/pump/sender/flat.hh:100-111 | from any position and with any try blocks open the machine reaches the end of the operations with the signal and the open try blocks the recursive meaning gives, or leaves them as it does |
| OpMachine.Unwinds | src/pump/sender/then.hh:209-237 | an exception runs down the stack to the innermost open try block that catches it and goes on at the operation after it, or reaches a released scope, as the meaning says |
| OpMachine.Answers | src/pump/core/op_pusher.hh:103-145 | whatever the machine decides has a meaning |
| OpMachine.MachineIsGuarded | src/pump/sender/any_exception.hh:138-154 | for every environment, whatever its functions throw: machine and recursive meaning with try blocks come to the same outcome, an escape or a crash included, each if and only if the other does |
| OpMachine.MachineIsMeaning | src/pump/core/op_pusher.hh:46-145 | machine and the meaning senders are meant to have agree on every pipeline, position, signal and outcome if and only if no handler of skips throws and recovery handlers throw only std::exception |
| OpMachine.TameNeverEscapes | src/pump/sender/when_skipped.hh:103-115 | under that condition nothing escapes and nothing is pushed into a released scope |
| OpMachine.CaughtUpstream | src/pump/sender/then.hh:209-237 | a handler of skips that throws: the recovery after an earlier `then` answers, where the one after the handler was meant to |
| OpMachine.CrashesInReleasedScope | src/pump/core/op_pusher.hh:111-119 | a handler that throws downstream of a `flat` whose sender ends in a `then`: the exception is pushed into a scope that has been released |
| OpMachine.ScopesFreedOnce | src/pump/core/op_pusher.hh:111-143 | on every path through every pipeline every scope allocated is freed exactly once, if and only if the same condition on the handlers holds |
| OpMachine.Sequence | src/pump/core/op_pusher.hh:46-72 | the meaning of two pipelines one after the other is the first's signal handed to the second |
| OpMachine.FlatInlines | src/pump/sender/flat.hh:100-111 | running a sender through `flat` means what its operations mean written in its place, for every outcome |
| OpMachine.RecoveryInlines | src/pump/sender/any_exception.hh:138-154 | a recovered exception goes on as the handler's sender would in its place |
| OpMachine.SkipInlines | src/pump/sender/when_skipped.hh:103-115 | likewise for a skip |
| OpMachine.SkipRuns | src/pump/sender/when_skipped.hh:103-115 | on the machine too, for every outcome, the sender of a skip handler runs like one handed to `flat` |
| OpMachine.JustPushes | src/pump/sender/just.hh:113-150 | a pipeline that begins with `just` of a value or an exception is, in meaning and on the machine, the rest of it on that value or exception |
| OpMachine.MaybeUnwraps | src/pump/sender/maybe.hh:99-108 | `maybe` on an optional is the rest on its content, or on a skip if it has none |
| OpMachine.MaybeNotReverses | src/pump/sender/maybe.hh:110-119 | `maybe_not` on an empty optional is the rest on a value, and on any other the rest on a skip |
| OpMachine.ThenThrows | src/pump/sender/then.hh:209-237 | a `then` whose function throws is the rest on that exception |
| OpMachine.ThenReturns | src/pump/sender/then.hh:209-237 | a `then` whose function returns is meant as the rest on the result, and runs as that inside a try block: what escapes from the rest is pushed to the rest once more, as an exception |
| OpMachine.RecoveryFails | src/pump/sender/any_exception.hh:138-154 | a recovery whose handler throws a std::exception is the rest on that exception |
| OpMachine.RecoveryRuns | src/pump/sender/any_exception.hh:138-154 | a recovery whose handler gives a sender runs like that sender handed to `flat` inside a try block that pushes the std::exceptions that escape to the rest |
| OpMachine.PassesOn | src/pump/core/op_pusher.hh:46-77 | exceptions pass everything but recoveries, skips everything but handlers of skips, done everything, and values pass both, in meaning and on the machine |
| OpMachine.HandlerEscapes | src/pump/sender/when_skipped.hh:103-115 | what a handler of skips throws, or a recovery throws that is no std::exception, is meant to go on as an exception, and on the machine leaves the pipeline |
| OpMachine.WrongValue | src/pump/sender/maybe.hh:99-119 | `maybe` and `maybe_not` on what is no optional, and `flat` on what is no sender, come to nothing but a type error |
| ContextMatching.WalkFindsStack | src/pump/core/op_tuple_builder.hh:46-74 | the backward walk with counter k finds the k-th context from the top of the forward stack |
| ContextMatching.PopMatchesTop | src/pump/core/op_tuple_builder.hh:46-74 | a pop compiles iff there is something to pop, and is matched with the innermost |
| ContextMatching.ValuePath | src/pump/sender/push_context.hh:141-157 | on the value path the runtime contexts are the static stack |
| ContextMatching.PathCompilesIff | src/pump/sender/pop_context.hh:108-163 | in a pipeline whose value path is balanced, any other path, with any number of signals raised and recovered, compiles iff every pop that a value comes to closes a push that a value came to; it then ends with the root context, and every pop takes its own context or none |
| ContextMatching.RecoveriesAtSameLevel | src/pump/sender/pop_context.hh:108-163 | a path on which every recovery, however many, happens with no context open that its signal passed by unpushed compiles and ends with the root context |
| ContextMatching.RaisedReachesRoot | src/pump/sender/pop_context.hh:108-163 | an exception, skip or done raised anywhere in a balanced pipeline reaches the end with the root context, every pop taking its own context or none |
| ContextMatching.RecoveryAtSameLevel | src/pump/sender/pop_context.hh:108-163 | with one signal raised and recovered that is exact: it compiles iff no context it passed by unpushed is still open there |
| ContextMatching.ReleasedOnce | src/pump/sender/pop_context.hh:112-117 | every context pushed is released exactly once on every path that ends at the root |
| ContextMatching.HasIdMeaning | src/pump/core/context.hh:76-83 | has_id asks whether the id is anywhere on the stack |

## Left out

- Weak memory orderings and fences: all interleavings here are sequentially consistent.
- StreamControl: the outcome of an element (value, exception or skip) is abstracted to its arrival at `reduce`, whose fold is one step; operations between `concurrent` and `reduce` are not modelled, nor skips raised before `concurrent`.
- SequentialDrain: `sequential` under a bounded `concurrent(M)`, whose poll drains the cache instead of polling upstream; which of the variants an item is; what an access to a stream's scope does that is already gone. `empty()` compares two loads whose order C++ leaves open; the model loads the head first.
- PollLoop: a poll when 2^32 - 1 are already pending, where the count would wrap.
- OptimisticDequeue: the block index that maps a claimed index to its element, the elements' destruction, and indices beyond 2^63 apart.
- FreeList: reference counts beyond 31 bits.
- BlockRing: `peek` and `pop`, which take the same branches as `try_dequeue`; element constructors that throw. Runs go on past a failed assertion, as in a build without them.
- TicketWrap: what becomes of the 32-bit ring after a thread has moved with a position more than 2^31 - capacity tickets old.
- PerCoreQueue: each call on a single-producer queue is one step, as SpscRing justifies; the return value of `drain`; the abort on a full queue is a refusal.
- RaceWrapper: submissions that throw; branches that never signal or signal twice.
- ReadMerge: put, flush and trim requests, and the device-side meaning of a read; pages are their positions and contents.
- OpMachine: what a push into a released scope does; the machine stops with `Crashed`. Exceptions thrown by allocation, by moving a value, or through `noexcept`. Operations that suspend, streams and contexts are not part of this machine; `fuel` bounds the nesting of senders, and both sides of MachineIsMeaning quantify over it.
- ContextMatching: lookup of a datum by type; the contents of contexts.
- `mpsc::queue`, `ring_queue`, the scope slabs, `when_all`, timers and coroutine bridging are not modelled.
- Sockets, io_uring, DPDK, SPDK and CUDA calls: foreign code, not part of this model.
