# Xylem: verified models

Xylem is a coroutine runtime in C: a pool of workers that steal work from each other and share one I/O poller, lock-free
queues, wait slots, timers, blocking primitives, and the intrusive containers these rest on. This project models its
hardest parts in Dafny and proves what they promise, for every input and every interleaving.

Two forms are used.

- **Protocols** are transition systems on values. An `Action` is one atomic operation of the C code (all of which are
  sequentially consistent), or one section under a lock that no reader bypasses; `Next` relates a state to its successors
  and leaves scheduling, time-outs, spurious compare-exchange failures and the platform's answers open. Theorems ending in
  `OverRuns`, and those that take `states` and `acts`, hold in every state or step of every finite run (`Runs.IsRun`).
  Fields documented as history or bookkeeping are written by the steps and never read by them.
- **Structures** that one thread changes in place are classes with the source's fields, whose methods follow the source's
  loops and are proved against a specification of the abstract value: the heap's numbered layout, the red-black tree
  behind the links, the queue's contents, the multiset of slot addresses.

| files | source |
|---|---|
| `Scheduler*.dfy`, `RunQueue.dfy`, `WorkStealingQueue.dfy` | worker loop, wake and poll protocol, run queues |
| `MpscQueue.dfy`, `Channel*.dfy` | message queue and channel |
| `Timer*.dfy` | timers of one worker |
| `IoWaitSlot.dfy`, `IoWaitPair.dfy`, `IoWaitSlab.dfy` | I/O wait slots, both directions, and the slab they live in |
| `Mutex.dfy`, `Semaphore.dfy` | blocking primitives |
| `HeapOrder.dfy`, `LinkedHeap.dfy`, `RbShape.dfy`, `RbFixup.dfy`, `RbTree.dfy` | containers |
| `SlotTiers.dfy`, `SlotCallbacks.dfy`, `SlotProtocol.dfy` | coroutine storage |
| `Base64.dfy` | Base64 codec |
| `Runs.dfy`, `Prelude.dfy` | finite runs and their induction; shared definitions |

What a caller must know that the code does not say: a timer that is stopped and then re-armed during one of its fires
loses that arm (`TimerProofs.DropsOverRuns`, `TimerProofs.StopThenResetLeaks`). The comment at
src/runtime/iowait.c:389 says that an arm's reference is released on timeout or re-arm; `_iowait_set_deadline` avoids the
pair within one call, but a deadline cleared by one call and set by a later one, both during one fire of its timer, drops
an arm and keeps its reference. `TimerProofs.LedgerOverRuns` shows that this is the only way.

## Model

| member | source | states |
|---|---|---|
| `SchedulerSteps.NextKeeps` | src/runtime/scheduler.c:467-588 | every step of every thread keeps the control invariant: the idle and searching counters are exact up to a transition in progress, at most one thread is inside the state lock, the poller role has one holder, a worker reserved while going to sleep has its wake-up on the way, and queued work is in somebody's care |
| `SchedulerConservation.NextConserves` | src/runtime/scheduler.c:590-658 | every step keeps each coroutine at exactly one place, in the state that place calls for, with no abort and no coroutine dropped by an unchecked ring push |
| `SchedulerTheorems.SafeOverRuns` | src/runtime/scheduler.c:1225-1325 | both invariants hold in every state of every run, for any number of workers and outside threads |
| `SchedulerTheorems.ConservationOverRuns` | src/runtime/scheduler.c:217-233 | in every reachable state a coroutine is seen in exactly one place; it is RUNNABLE iff that place is a runnext slot, a ring, the run queue or a thread's hand; the checked state transitions never abort |
| `SchedulerTheorems.NoLostWork` | src/runtime/scheduler.c:508-564 | with work on the global queue and no publisher still inside its wake, some worker has yet to look at the queue before blocking, or its wake-up has been sent or is about to be |
| `SchedulerTheorems.LooksBeforeBlocking` | src/runtime/scheduler.c:1140-1309 | while the global queue stays non-empty, a worker that is not about to block does not come to block |
| `SchedulerTheorems.LooksOverRuns` | src/runtime/scheduler.c:1259-1296 | a worker passes its last look only at a step that sees the global queue empty, with its own ring and runnext empty; it comes to its semaphore only by a poller exchange that finds the role taken |
| `SchedulerTheorems.NeverAllAsleep` | src/runtime/scheduler.c:1021-1043 | at most one worker is in the poller; poller_running is set iff one is; while it is clear, some worker is not at its semaphore, so by `LooksOverRuns` has its last poller exchange still before it |
| `SchedulerTheorems.RestMeansNothingToRun` | src/runtime/scheduler.c:1199-1296 | if every worker is blocked with no wake-up pending, then all queues are empty, every live coroutine is parked in a wait slot, and exactly one worker sits in the poller |
| `SchedulerTimers.NoDeadlineMissed` | src/runtime/scheduler.c:566-588 | a queued deadline whose notification is not still to be made is slept through by nobody: its owner at the semaphore, and any worker in the poller, is blocked until then at the latest or has its wake-up sent or about to be |
| `SchedulerTimers.RestEndsInTime` | src/runtime/scheduler.c:920-957 | when all workers are blocked with nothing pending, the one in the poller wakes by the earliest deadline of all workers |
| `SchedulerTimers.StepKeeps` | src/runtime/scheduler.c:1199-1223 | every step of the loop, of arming and disarming timers, and of reading hints one by one keeps deadlines covered |
| `SchedulerModel.FairShare` | src/runtime/runq.c:123-144 | a share never exceeds the queue or the room, and is zero only for an empty queue or no room |
| `RunQueue.SharesCover` | src/runtime/runq.c:132-140 | unless a share is all there is room for, as many shares as there are consumers cover the queue |
| `RunQueue.Queue.Append` | src/runtime/runq.c:35-47 | the chain is at the end of the queue, all links and the count included |
| `RunQueue.Queue.Detach` | src/runtime/runq.c:49-63 | the first n nodes are detached, still chained; the queue is the rest |
| `RunQueue.Queue.PushBatch` | src/runtime/runq.c:93-111 | the queue is what it was followed by the batch, in order |
| `RunQueue.Queue.Pop` | src/runtime/runq.c:113-121 | the oldest node, or none |
| `RunQueue.Queue.PopFair` | src/runtime/runq.c:123-160 | exactly the fair share of oldest nodes, in order and unlinked |
| `WorkStealingQueue.NextKeeps` | src/runtime/wsq.c:43-70 | each atomic operation of the owner or a grabber keeps cursors, live window and in-flight reads consistent, stale heads and reused slots included |
| `WorkStealingQueue.FifoOverRuns` | src/runtime/wsq.c:116-147 | what successful head exchanges hand out, in order, is a prefix of what tail stores published; head <= tail <= head + cap throughout |
| `WorkStealingQueue.ResultsOverRuns` | src/runtime/wsq.c:43-70 | a grab returns exactly the oldest unclaimed run; empty is answered only by an empty ring and full only by a full one |
| `WorkStealingQueue.RemainingSuffices` | src/runtime/wsq.c:108-114 | the count computed from two separate loads never promises more room than pushes then find |
| `MpscQueue.NextKeeps` | src/container/mpsc.c:34-90 | each atomic operation keeps the chain: links are stored or owed by the producer that claimed the successor, and no node is in it twice; the sentinel, which is put back unasked, has always left it by then |
| `MpscQueue.DeliveryOverRuns` | src/container/mpsc.c:34-90 | returned nodes followed by waiting ones are the claimed ones in tail-exchange order; the sentinel is never delivered; a link still owed goes into a node not yet returned |
| `MpscQueue.AnswersOverRuns` | src/container/mpsc.c:45-104 | pop returns the oldest claimed node, and NULL only when none is waiting; can_pop says no only when nothing waits or the oldest claim is unlinked |
| `ChannelProofs.NextKeeps` | src/sync/xylem-channel.c:88-116 | every step of senders, closer, stale timeouts and receiver keeps the waiter word, the wake count and the message count consistent |
| `ChannelProofs.NeverStranded` | src/sync/xylem-channel.c:219-275 | if a receiver has looked and its waiter is reserved or published while a message is claimed, some sender has its waiter transition still to come |
| `ChannelProofs.OneWakePerWaiter` | src/sync/xylem-channel.c:351-421 | each removed waiter is answered by exactly one wake or token, consumed before the receive ends; the slot-busy, not-parked and double-close aborts are unreachable |
| `ChannelProofs.CloseOverRuns` | src/sync/xylem-channel.c:501-553 | a closed word stays closed; a receive gives up on a closed channel only when every claimed message has been received and none is announced |
| `TimerProofs.NextKeeps` | src/runtime/scheduler.c:666-729 | every locked section keeps heap, states, fires, hint and ledger consistent |
| `TimerProofs.MachineOverRuns` | src/runtime/scheduler.c:838-918 | in the heap iff QUEUED and under its current deadline; one outstanding fire iff FIRING; no pending flag outside FIRING; the hint is at most every queued deadline, and exact between passes |
| `TimerProofs.FastPathSkipsNothing` | src/runtime/scheduler.c:838-848 | a pass skipped by the lock-free guard would have found nothing due |
| `TimerProofs.LedgerOverRuns` | src/runtime/scheduler.c:1773-1841 | arms are fired, reported cancelled, replaced, dropped or outstanding; for a one-shot timer re-armed by reset, an idle timer's arm references balance iff none was dropped |
| `TimerProofs.DropsOverRuns` | src/runtime/scheduler.c:674-702 | the end of a fire drops an arm exactly when the last call made during it re-arms the timer and an earlier one stopped it |
| `TimerProofs.StopThenResetLeaks` | src/runtime/iowait.c:352-454 | a six-step run after which the timer is idle and one reference is still held |
| `TimerOwner.Owner.Publish` | src/runtime/scheduler.c:666-672 | the root of the linked heap gives the earliest deadline of the queued timers |
| `TimerOwner.Owner.Start` | src/runtime/scheduler.c:1729-1771 | on the linked heap, takes the start step of the machine, with the queued timers' nodes in the heap under their deadlines before and after; armed is reported unless the timer was firing |
| `TimerOwner.Owner.Stop` | src/runtime/scheduler.c:1773-1797 | takes the stop step on the linked heap; true iff an arm was outstanding, and none is afterwards |
| `TimerOwner.Owner.Reset` | src/runtime/scheduler.c:1799-1841 | takes the reset step on the linked heap; true iff an arm was outstanding, and one is afterwards |
| `TimerOwner.Owner.PopDue` | src/runtime/scheduler.c:850-884 | takes the root of the heap if due, the earliest timer; otherwise no queued timer is due |
| `TimerOwner.Owner.Complete` | src/runtime/scheduler.c:674-729 | takes the completing step on the linked heap: stop before reset before repeat |
| `IoWaitSlot.NextKeeps` | src/runtime/iowait.c:284-316 | every step of events, closers, deadline setters, timer callbacks and the waiter keeps the slot consistent |
| `IoWaitSlot.ExactlyOnceWake` | src/runtime/iowait.c:609-640 | in one direction: a committed coroutine is in the word or carried by exactly one agent, and parked meanwhile; a closed slot holds a coroutine only until its closer's transition |
| `IoWaitSlot.WordOverRuns` | src/runtime/iowait.c:469-507 | a READY credit is given only by an event on an open iowait and taken only by a wait that returns READY; a coroutine leaves the word only into the hands of the agent whose exchange replaced it |
| `IoWaitPair.NextKeeps` | src/runtime/iowait.c:609-714 | with both directions under the one poll lock and closed flag, every step keeps each direction's invariant and the two in step |
| `IoWaitPair.ExactlyOnceWake` | src/runtime/iowait.c:609-714 | in both directions a committed coroutine is woken exactly once, by whoever took it out of its word; with the flag up, a word holds one only while the closing agent holds the lock |
| `IoWaitPair.WordsOverRuns` | src/runtime/iowait.c:284-316 | each step does to each word only what one direction allows, or nothing |
| `IoWaitSlab.NextKeeps` | src/runtime/iowait.c:151-282 | every atomic step keeps free list, reference counts, life phases and posted events consistent |
| `IoWaitSlab.StaleEventsHarmless` | src/runtime/iowait.c:265-282 | however late it comes, an event acts only on the live incarnation it was posted for; held iowaits are alive |
| `IoWaitSlab.LifeOverRuns` | src/runtime/iowait.c:241-263 | a slot is handed out only when free and unreferenced; a count leaves zero only by publication; the generation rises once per incarnation, at its single retirement |
| `IoWaitSlab.UnreleasedPins` | src/runtime/iowait.c:389-454 | a reference that is never released, such as that of a dropped arm, keeps its incarnation alive in every later state |
| `IoWaitSlab.PackingRoundTrips` | src/runtime/iowait.c:137-149 | index and generation survive packing, and the packed word is never NULL |
| `IoWaitSlab.IndexAddresses` | src/runtime/iowait.c:113-125 | indices and page/offset pairs correspond one to one |
| `HeapOrder.SwapUp` | src/container/heap.c:106-112 | a sift-up swap moves the only possible fault one level up |
| `HeapOrder.SwapDown` | src/container/heap.c:178-192 | a sift-down swap with the smallest child moves the possible faults one level down |
| `HeapOrder.RootIsLeast` | src/container/heap.c:217-218 | in heap order the root's key is a least one |
| `LinkedHeap.Heap.SwapNode` | src/container/heap.c:25-58 | the two nodes exchange numbers; every child and parent link of the complete tree is right again |
| `LinkedHeap.Heap.Locate` | src/container/heap.c:83-101 | the bit path of k reaches the parent of number k, on the right side |
| `LinkedHeap.Heap.SiftUp` | src/container/heap.c:110-112 | restores heap order over the same nodes |
| `LinkedHeap.Heap.SiftDown` | src/container/heap.c:178-192 | restores order below, over the same nodes |
| `LinkedHeap.Heap.Insert` | src/container/heap.c:69-113 | a complete, linked, ordered heap over the old nodes and the new one |
| `LinkedHeap.Heap.Remove` | src/container/heap.c:115-204 | the same over the old nodes without the removed one, wherever it was |
| `LinkedHeap.Heap.Peek` | src/container/heap.c:217-218 | a node with the least key, or none iff the heap is empty |
| `RbShape.HeightBound` | src/container/rbtree.c:75-271 | two to the height is at most (n + 1) squared, so the height is at most 2 log2(n + 1) |
| `RbShape.Apart` | src/container/rbtree.c:282-301 | key order keeps the nodes of a subtree, of its parts and of its context apart |
| `RbShape.LeftmostIsNext` | src/container/rbtree.c:312-340 | the leftmost node of the right subtree can stand in the removed node's place |
| `RbFixup.UncleRed` | src/container/rbtree.c:101-107 | recolouring moves the only red-red edge two levels up and keeps black heights |
| `RbFixup.UncleBlack` | src/container/rbtree.c:129-167 | the rotation removes the red-red edge and keeps black heights |
| `RbFixup.Sibling` | src/container/rbtree.c:208-218 | the sibling of a node one black short is never NULL, nor are the children of a red sibling |
| `RbFixup.SiblingRed` | src/container/rbtree.c:213-218 | rotating a red sibling up leaves the same shortage with a black sibling |
| `RbFixup.SiblingDull` | src/container/rbtree.c:219-223 | a red-painted sibling moves the shortage one level up |
| `RbFixup.SiblingNear` | src/container/rbtree.c:225-230 | rotating the sibling makes its far child red |
| `RbFixup.SiblingFar` | src/container/rbtree.c:231-236 | the last rotation ends the shortage |
| `RbTree.RbTree.RotateLeft` | src/container/rbtree.c:27-44 | links, parent links and context represent the rotated tree |
| `RbTree.RbTree.RotateRight` | src/container/rbtree.c:46-63 | the mirror image |
| `RbTree.RbTree.InsertColor` | src/container/rbtree.c:75-202 | from a red leaf with at most a red parent, a red-black tree over the same nodes, linked both ways |
| `RbTree.RbTree.EraseColor` | src/container/rbtree.c:204-271 | from a place one black short, a red-black tree over the same nodes, linked both ways |
| `RbTree.RbTree.Insert` | src/container/rbtree.c:282-301 | a red-black search tree over the old nodes and the new one, or the same tree if the key is there |
| `RbTree.RbTree.Remove` | src/container/rbtree.c:303-364 | a red-black search tree over exactly the other nodes |
| `RbTree.RbTree.Find` | src/container/rbtree.c:370-383 | a node with the key, or NULL iff no node has it |
| `RbTree.RbTree.Next` | src/container/rbtree.c:385-407 | the node with the next larger key, or NULL iff there is none |
| `Mutex.NextKeeps` | src/sync/xylem-mutex.c:114-169 | every atomic step keeps guard, owner, queue and wakes consistent and queued waiters cared for |
| `Mutex.OneOwner` | src/sync/xylem-mutex.c:75-78 | at most one owner, and the flag is set iff there is one; a blocked client off the queue has exactly one wake coming |
| `Mutex.NobodyForgotten` | src/sync/xylem-mutex.c:205-218 | while anyone is queued, the lock is held, an unlocker is between its store and its pop, or a woken waiter has its retry still to come |
| `Semaphore.NextKeeps` | src/sync/xylem-sem.c:131-252 | every step keeps queue order, fates, wakes and the token ledger |
| `Semaphore.TokensConserved` | src/sync/xylem-sem.c:344-358 | initial value plus posts equals banked plus granted plus handed over; nobody is queued while a token is banked; a served waiter has exactly one wake coming |
| `Semaphore.EndsOverRuns` | src/sync/xylem-sem.c:154-252 | a queued wait ends by exactly one of being served, oldest first and then returning true, or being cancelled by its own time-out and returning false |
| `SlotTiers.LocalPool.Take` | src/runtime/copool.c:89-105 | the youngest slots, as many as asked for and there |
| `SlotTiers.LocalPool.Put` | src/runtime/copool.c:107-124 | the longest valid prefix that fits is on top |
| `SlotTiers.SharedPool.Take` | src/runtime/copool.c:145-173 | slots from the tail, as many as asked for and there |
| `SlotTiers.SharedPool.Put` | src/runtime/copool.c:175-205 | the valid prefix for which entries could be allocated is at the tail |
| `SlotTiers.StripIsNew` | src/runtime/arena.c:121-126 | a new region yields that many addresses, all different and none carved before |
| `SlotTiers.Arena.Reserve` | src/runtime/arena.c:63-82 | a region that could be reserved, or the least size could not be |
| `SlotTiers.Arena.Grow` | src/runtime/arena.c:63-128 | the free list gains exactly the newly carved slots, at least 64; or nothing changes, and then only because the platform refused |
| `SlotTiers.Arena.Alloc` | src/runtime/arena.c:182-201 | what is free and what was taken together are what was free and what was carved; it grows only when short, and falls short only with nothing left free |
| `SlotTiers.Arena.GiveBack` | src/runtime/arena.c:203-231 | every slot given is free again, or lost exactly if its decommit failed; the overflow abort is unreachable |
| `SlotCallbacks.Storage.Allocate` | src/runtime/scheduler.c:305-356 | addresses are conserved between arena, shared pool, the worker's pool, the losses and the slot handed out; it fails only with every tier empty and the arena unable to grow |
| `SlotCallbacks.Storage.Deallocate` | src/runtime/scheduler.c:358-399 | the released address and nothing else enters the tiers, on top of the worker's pool if reusable; only failed decommits lose any; the failed-put abort is unreachable |
| `SlotProtocol.NextKeeps` | src/runtime/scheduler.c:250-399 | with any number of threads between any two tier operations, each operation keeps every address in one place, buffers included, and every mark right |
| `SlotProtocol.PartitionOverRuns` | src/runtime/scheduler.c:305-399 | over every interleaving, each address ever carved is, once, free in the arena, lost to a failed decommit, in the shared pool, a live coroutine's, or in one thread's pool or hands; no other address is anywhere |
| `SlotProtocol.NeverAborts` | src/runtime/arena.c:203-231 | the free array has room for what any thread is about to append, and a spilled pool for the slot put again, in every reachable state |
| `SlotProtocol.HandOutOverRuns` | src/runtime/scheduler.c:305-356 | a created coroutine gets an address that is nobody else's, reported reusable iff there is memory behind it |
| `Base64.TablesInverse` | src/encoding/xylem-base64.c:24-60 | both decoding tables invert both encoding tables, and '=' is in neither |
| `Base64.DecodeEncode` | src/encoding/xylem-base64.c:62-112 | decoding an encoding gives the bytes back |
| `Base64.EncodeDecode` | src/encoding/xylem-base64.c:114-185 | an accepted text is the encoding of what it decodes to |
| `Base64.Bijection` | src/encoding/xylem-base64.c:62-185 | for both alphabets and padding modes, a text decodes to some bytes iff it is their encoding |
| `Base64.Encode` | src/encoding/xylem-base64.c:62-112 | the loop writes exactly the encoding, within the promised size, or reports -1 iff the buffer is below the encoded size |
| `Base64.Decode` | src/encoding/xylem-base64.c:114-185 | the loop writes exactly the decoded bytes, within the promised size, or reports -1 iff the buffer is below the size or the text is not canonical |

## Left out

- Shutdown (`running == false`), teardown order and destruction of every component.
- Sockets, poller back ends, futexes, OS semaphores, virtual memory and the clock: their answers are left open or are parameters.
- The fast path of `scheduler_coro_ready_batch` for a pool of one worker; the general path is modelled for every pool size.
- In the scheduler the count a steal or half-pop takes is any count the ring allows, more than the code's half; ring and run-queue operations are single steps, which `WorkStealingQueue` and `RunQueue` justify; timer callbacks appear as code that may make coroutines runnable and arm timers.
- The round-robin start of the wake scan: any idle worker may be the one reserved.
- 64-bit wrap-around of the ring cursors, the 32-bit wrap of the semaphore's count, the 16-bit wrap of the iowait generation and of the packed index on 32-bit platforms.
- The poller's part of an iowait (interest, re-arming under the poll lock).
- Reference counts of channels, timed channel and semaphore waiters and timer objects; a timer fire whose coroutine cannot be spawned.
- The passes of `_sched_timer_process_due` as one loop with its batch limit: each turn is a step, with arbitrary calls in between.
- SlotCallbacks.Storage.Allocate: one callback alone, what it moves and when it fails; `SlotProtocol` has all threads' callbacks at once.
- RbTree.RbTree.Remove: the successor's and the removed node's assignments are grouped by place rather than interleaved; the links they leave are the same.
- `rbtree_prev`, `rbtree_min`, `rbtree_max`: mirror images or parts of `rbtree_next`.
- The condition variable, wait group, thread pool, dynamic pool, list, queue, ring buffer, URL, varint, hash and network modules.
- Fairness, progress rates and timing accuracy; deadlines are instants of a clock that does not run backwards, while the code reads wall time.
- The reference a timer arm takes and the slab's count are two machines: the ledger's `held` counts the arms' references, and `IoWaitSlab.UnreleasedPins` says what one that is never released does.
