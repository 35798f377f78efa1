# Asyncband, modelled and proved in Dafny

Asyncband is a library of asynchronous synchronisation primitives. Its guarantees - nothing lost, first
come first served, no missed wake-up, safe cancellation, one owner at a time - have to hold for every
interleaving of polls, drops and releases. This project models the primitives whose guarantees are
hardest to see from the code, and proves them for every run.

Run `dafny verify dfyconfig.toml` to check the whole project.

## How things are modelled

- A component behind one lock is a class with the source's fields. What callers hold - permits, guards,
  futures, handles - is a table in the same class, so that an invariant can speak about it. Each
  critical section is a method; a poll or a drop may come at any time.
- Beside such a class stands a model on plain values, without nodes, counters or segments. `Act` says
  what one operation does, answers and wakes; `Replies` and `After` say so for a script of operations.
  The laws of all runs are lemmas about the model; those in the `History` files
  speak only of the operations made and of what each answered and woke. Every method is proved to follow it, and `Play`, which
  applies an arbitrary script to a new object, returns the model's replies.
- A protocol on atomics or across several locks is a state machine over values: one step per load,
  exchange or critical section, any number of threads and futures, and a lemma over all sequences of
  steps. An action that is not enabled leaves the state alone, so every sequence is a run.
- A waker is a task number. Waking is what a method returns, or a flag. In the semaphore a waker taken out
  of a node counts as woken: the thread wakes it right after it has let go of the lock.
- User code - object creation, recycling checks, computations, predicates - is an arbitrary outcome.

| files | component | main results |
|---|---|---|
| `Arena`, `WaitList` | slot arena and doubly linked wait list | refine a map of live nodes and a sequence of linked ids |
| `Semaphore*` | batch semaphore, lock-free and locked steps | permit conservation, queue shape, no overtaking by anyone, no lost wake-up, what each operation gives its caller, termination of distribution; the operations on the linked list refine the machine |
| `Oneshot*` | five-state oneshot channel | memory safety, single fate of the message, the right answer to every call, no lost wake-up, bounded drop loop |
| `Guards`, `RwLock*` | upgradable reader-writer lock over two semaphores | exclusion, no writer between read and upgrade, what an upgrade waits for, which guard each operation ends with and when a try succeeds, cancellation |
| `Pool*` | bounded object pool | the bound under concurrent `replenish_to`, and how much it creates; objects are conserved and checked; in-place `retain`; the slot state carries out the machine's steps |
| `Broadcast` | broadcast backlog | per-slot cursor counts behave like one queue per subscription |
| `Crowd`, `Desk` | waiting futures over the linked wait list | the list and the node ids of its futures behave like a line of futures |
| `Channel`, `Mpmc*`, `Spmc*` | mpmc and spmc queues | capacity conservation, exactly-once delivery in order, no lost wake-up, no overtaking; the queues over linked lists answer as the models do |
| `Barrier*`, `Phaser` | phaser | the wrapping counters follow a barrier that looks at every party, waits included |
| `Coalescing*` | `singleflight` and `OnceMap` over `OnceCell` | one computation per key, for that key; no abandoned entry, nobody stuck |
| `AutoReset*`, `Condvar*` | auto-reset event, condition variable | signals and notifications are conserved under cancellation |
| `Mpsc` | segmented mpsc channel | answers as a plain first-in, first-out queue; segment arithmetic |

Invariants worth reading first: `SemaphoreSafety.Inv`, `OneshotSafety.Inv`, `RwLocks.Inv`,
`PoolSafety.Inv`, `Broadcast.Backlog.Valid`, `MpmcModel.Inv`, `Desks.Shows`, `Barriers.Inv`,
`Phasers.Phaser.Valid`, `Coalescing.Inv`.

Where code and documentation can be read differently, the code is followed. One case: a `retain`
predicate that panics may leave the idle objects of a pool in another order, and the model allows any
order then.

## Model

| member | source | states |
|---|---|---|
| Arenas.Arena.constructor | asyncband/src/internal/arena.rs:71-78 | a new arena is empty and its vacant list too |
| Arenas.Arena.Insert | asyncband/src/internal/arena.rs:87-109 | the id returned is not live, the live map gains exactly that entry, and the most recently vacated slot is reused first |
| Arenas.Arena.Get | asyncband/src/internal/arena.rs:111-116 | finds exactly the live values |
| Arenas.Arena.Put | asyncband/src/internal/arena.rs:118-124 | writing through the reference changes one live value and nothing about vacancy |
| Arenas.Arena.Remove | asyncband/src/internal/arena.rs:141-166 | returns the live value, removes only that id, and puts its slot at the front of the vacant list, which still visits each vacant slot once |
| Arenas.Arena.TakeAll | asyncband/src/internal/arena.rs:168-182 | hands out every live value once, in slot order, and restarts the ids |
| Arenas.Drain | asyncband/src/internal/arena.rs:168-182 | the loop collects exactly the live values, as many as the arena counts |
| WaitLists.WaitList.constructor | asyncband/src/internal/waitlist.rs:56-63 | a new list is the empty queue with no nodes |
| WaitLists.WaitList.PushFront | asyncband/src/internal/waitlist.rs:65-80 | the links spell the old queue with the new id in front; the id is not a live one |
| WaitLists.WaitList.PushBack | asyncband/src/internal/waitlist.rs:82-97 | the same at the back |
| WaitLists.WaitList.UnlinkWaiter | asyncband/src/internal/waitlist.rs:103-132 | the predicate decides; unlinking at any position keeps the order of the rest, and unlinking a detached node changes no links |
| WaitLists.WaitList.UnlinkFirstWaiter | asyncband/src/internal/waitlist.rs:134-142 | only the head is looked at, and it is detached exactly when the predicate says so |
| WaitLists.WaitList.IsEmpty | asyncband/src/internal/waitlist.rs:144-147 | empty means nothing is linked; detached nodes do not count |
| WaitLists.WaitList.Waiter | asyncband/src/internal/waitlist.rs:149-151 | linked or detached, a live node's value can be read |
| WaitLists.WaitList.PutWaiter | asyncband/src/internal/waitlist.rs:149-151 | writing a value through the reference changes no links |
| WaitLists.WaitList.RemoveUnlinkedWaiter | asyncband/src/internal/waitlist.rs:153-159 | a detached node's value is returned and only its id stops being live |
| WaitLists.WaitList.AbsWf | asyncband/src/internal/waitlist.rs:39-54 | what the links spell is a queue of distinct live ids |
| WaitLists.BypassSpells | asyncband/src/internal/waitlist.rs:103-132 | joining the two neighbours of a node leaves links that spell the queue without it |
| WaitQueues.WithoutKeeps | asyncband/src/internal/waitlist.rs:103-132 | taking out one id closes the gap it leaves: every other id stays, distinct and in order, and taking out an absent id changes nothing |
| SemaphoreSafety.DistributeShape | asyncband/src/internal/semaphore.rs:229-281 | serving the queue with some permits keeps the queue's shape and moves permits only from the release to waiters and debts |
| SemaphoreRuns.StepKeeps | asyncband/src/internal/semaphore.rs:81-165 | every atomic step - load, exchange, locked section - of every operation keeps queue shape, lock discipline and the permit ledger |
| SemaphoreRuns.RunKeeps | asyncband/src/internal/semaphore.rs:81-439 | the same for every interleaving of any number of threads and futures |
| SemaphoreRuns.Reachable | asyncband/src/internal/semaphore.rs:65-72 | every run from a new semaphore of any size |
| SemaphoreRuns.PermitsConserved | asyncband/src/internal/semaphore.rs:81-165 | in every run: available, assigned, carried, forfeited, handed-out and written-off permits add up to initial plus released plus owed; permits are available only while nothing is linked; debts come first, every linked node needs a permit, only the first acquire may be partly filled |
| SemaphoreRuns.SurplusKeeps | asyncband/src/internal/semaphore.rs:255-281 | the unchecked addition after distribution always finds zero, so it cannot wrap |
| SemaphoreRuns.CancelKeeps | asyncband/src/internal/semaphore.rs:292-311 | dropping a partly or fully granted acquire passes on exactly what it had been assigned |
| SemaphoreFairness.StepIsFair | asyncband/src/internal/semaphore.rs:229-281 | no step gives a permit to anyone behind a future that stays queued, and none changes the order behind it |
| SemaphoreFairness.FirstComeFirstServed | asyncband/src/internal/semaphore.rs:381-437 | over whole runs: while an acquire is queued, one that was queued behind it holds no permit at all and is still behind it, or cancelled |
| SemaphoreFairness.NoOvertaking | asyncband/src/internal/semaphore.rs:381-437 | the same from a new semaphore: after any run, and any continuation of it |
| SemaphoreFairness.NobodyBarges | asyncband/src/internal/semaphore.rs:81-165 | over whole runs: while an acquire stays queued no permit is drawn directly, and no request that was not ahead of it gains one - queued behind, polled later or made later |
| SemaphoreFairness.Fairness | asyncband/src/internal/semaphore.rs:81-165 | the same for every run from a new semaphore and every continuation of it |
| SemaphoreFairness.StepPassesNobody | asyncband/src/internal/semaphore.rs:381-437 | no step puts anyone in front of a queued acquire |
| SemaphoreFairness.OutForGood | asyncband/src/internal/semaphore.rs:314-353 | a registered acquire that has left the queue never joins it again |
| SemaphoreFairness.PassProgress | asyncband/src/internal/semaphore.rs:229-253 | a pass that ends with permits left and waiters linked has used up at least a full batch |
| SemaphoreFairness.DistributionEnds | asyncband/src/internal/semaphore.rs:229-281 | under arbitrary interference the loop takes the lock fewer than n/32 more times, n being the permits it distributes |
| SemaphoreClients.StepClosed | asyncband/src/internal/semaphore.rs:144-165 | clients that release only what they hold, and never reduce, keep the count within the semaphore's size, so no release panics |
| SemaphoreQueues.Semaphore.ServeFirst | asyncband/src/internal/semaphore.rs:236-252 | one turn of the inner loop is one head served, in full or in part |
| SemaphoreQueues.Semaphore.ServeBatch | asyncband/src/internal/semaphore.rs:236-252 | the inner loop over the linked list computes `Serve` with room for one batch of wakers |
| SemaphoreQueues.Semaphore.DistributePermits | asyncband/src/internal/semaphore.rs:229-281 | the batched outer loop does what serving the whole queue at once would, and makes available only what nobody waits for |
| SemaphoreQueues.BatchesCompose | asyncband/src/internal/semaphore.rs:229-281 | serving in two batches is serving in one, woken tasks in the same order |
| SemaphoreQueues.Semaphore.AcquireOrEnqueue | asyncband/src/internal/semaphore.rs:365-439 | takes everything available and queues at the back for the rest, under the task that polled, or takes what was asked and queues nothing |
| SemaphoreQueues.Semaphore.ReducePermits | asyncband/src/internal/semaphore.rs:127-130 | removes exactly n permits; what is missing becomes debt in front of every waiter |
| SemaphoreQueues.Semaphore.PollQueued | asyncband/src/internal/semaphore.rs:314-353 | completes, and removes the node, exactly when it needs nothing more; otherwise only the task in the node changes, to the one that polls now |
| SemaphoreQueues.Semaphore.Cancel | asyncband/src/internal/semaphore.rs:292-311 | removes the node and serves the queue with what the node had |
| SemaphoreRefinement.PassRefines | asyncband/src/internal/semaphore.rs:229-253 | a pass over the linked list refines the state machine's distribution: same queue, same needs, same permits left; every task woken is that of a request now satisfied, and nobody gets the last permit they need without the task in their node being woken |
| SemaphoreRefinement.AcquireRefines | asyncband/src/internal/semaphore.rs:365-439 | the class's acquisition is the machine's, carried through undisturbed: the same permits taken, the same node, under the same task, at the back for the rest |
| SemaphoreRefinement.ReduceRefines | asyncband/src/internal/semaphore.rs:127-130 | the class's reduction is the machine's: the same permits taken, the same debt in front |
| SemaphoreRefinement.CancelRefines | asyncband/src/internal/semaphore.rs:292-311 | removing a node, linked or not, and serving the queue with what it had, if it had anything, is the machine's cancellation: the same queue, needs, permits left and next step |
| SemaphoreRefinement.RepollRefines | asyncband/src/internal/semaphore.rs:323-335 | refreshing the task in a linked node is the machine's pending poll |
| SemaphoreRefinement.ReadyRefines | asyncband/src/internal/semaphore.rs:336-340 | removing a node that needs nothing more is the machine's completed poll |
| SemaphoreWakes.StepTells | asyncband/src/internal/semaphore.rs:229-353 | every step keeps: a registered acquire that needs permits has the waker of its latest poll in its node and has not been woken since; one that needs nothing more has been woken since, with that waker |
| SemaphoreWakes.RunTells | asyncband/src/internal/semaphore.rs:229-439 | the same over every sequence of steps |
| SemaphoreWakes.NoLostWakeup | asyncband/src/internal/semaphore.rs:229-353 | in every run of a new semaphore: if the last poll of an acquire was pending and it needs nothing more, the task that made that poll has been woken since; if it still needs permits, that task is the one in its node |
| SemaphoreWakes.OnlyOwnPolls | asyncband/src/internal/semaphore.rs:314-353 | the task a future goes by changes only when that future is polled, and then to the task that polls |
| SemaphoreGuards.Accounts | asyncband/src/internal/semaphore.rs:132-165 | permits held by clients, available, assigned and in flight add up to the semaphore's size |
| SemaphoreGuards.Restored | asyncband/src/internal/semaphore.rs:292-311 | when every client has let go and no thread is half-way, the count is back to the size and the queue is empty |
| SemaphoreGuards.TryOutcome | asyncband/src/internal/semaphore.rs:81-102 | a step of a try_acquire leaves it under way, having looked at the count as it is now; or ends it with nothing, on a count too small; or with all it asked for, which was there; one that asks for nothing never gives up |
| OneshotSafety.StepKeeps | asyncband/src/oneshot/mod.rs:124-147 | every atomic step of either end keeps the protocol: what the state byte can be, who owns message, waker and allocation |
| OneshotSafety.MemorySafe | asyncband/src/oneshot/receiver.rs:224-397 | in every interleaving no freed or uninitialised memory is touched, no unreachable state is hit, the allocation is freed at most once, and message and waker slots are accounted for |
| OneshotSafety.NothingLeaks | asyncband/src/oneshot/mod.rs:402-425 | once both ends are gone the allocation has been freed exactly once, the message has one fate, and every stored waker was taken or dropped; and it is freed no earlier |
| OneshotSafety.OutcomeOfSend | asyncband/src/oneshot/sender.rs:60-126 | a message is delivered, discarded or returned, never two of these; it is returned only if the receiver is gone |
| OneshotSafety.NoLostWakeup | asyncband/src/oneshot/mod.rs:269-307 | if the last poll returned Pending and the sender has finished, whoever polled has been woken since |
| OneshotSafety.DropRankFalls | asyncband/src/oneshot/receiver.rs:313-397 | each step of the drop loop brings it closer to the end, and no step of the sender takes it back |
| OneshotSafety.DropEnds | asyncband/src/oneshot/receiver.rs:313-397 | the drop loop ends within eleven of its own steps, however the sender interferes |
| RwLocks.StepKeeps | asyncband/src/rwlock/upgradable.rs:151-204 | every step of every operation, tokens being dropped one by one, keeps both semaphores' books and the permits each guard stands for |
| RwLocks.Reachable | asyncband/src/rwlock/upgradable.rs:108-113 | so does every run from a new lock with any reader limit |
| RwLockSafety.Exclusion | asyncband/src/rwlock/upgradable.rs:151-204 | in every run: a write guard excludes every other guard, guards that read never exceed the limit, and there is at most one upgradable guard |
| RwLockSafety.WriterExcludes | asyncband/src/rwlock/access.rs:86-132 | the permits of a writer leave none for anyone else |
| RwLockSafety.GuardsBounded | asyncband/src/rwlock/access.rs:52-85 | guards that read are at most as many as permits |
| RwLockSafety.OneReservation | asyncband/src/rwlock/upgradable.rs:91-96 | the reservation has at most one owner |
| RwLockSafety.NoWriterInBetween | asyncband/src/rwlock/upgradable.rs:275-335 | from the moment a client can read until it cancels or drops its guard itself - through upgrade, try_upgrade, downgrade - nobody else gets write access, and the value changes only by its own writes |
| RwLockSafety.ReadersKeepWritersOut | asyncband/src/rwlock/upgradable.rs:275-335 | the same from a new lock: after any run, and any continuation in which that client does not let go, nobody else writes, and the value changes only by its own writes |
| RwLockSafety.HasOwner | asyncband/src/rwlock/upgradable.rs:91-96 | every queued data request has an owner, and unless it is an ordinary read the owner holds the reservation |
| RwLockSafety.QueueOfReads | asyncband/src/rwlock/upgradable.rs:91-96 | at most one queued data request is not an ordinary read |
| RwLockSafety.UpgradeWaitsForReaders | asyncband/src/rwlock/upgradable.rs:263-281 | everything else in the queue of a waiting upgrade is an ordinary read, and what it still needs is exactly what other clients hold, have been assigned or carry |
| RwLockSafety.CancelRestores | asyncband/src/rwlock/upgradable.rs:268-281 | cancelling any pending operation and dropping its tokens takes the client back to owning nothing in either semaphore |
| RwLockSafety.IdleOwnsNothing | asyncband/src/rwlock/access.rs:81-85 | a client that is done owns no permit and has no request; the rest adds up without it |
| RwLockSafety.BothRestored | asyncband/src/rwlock/access.rs:81-132 | when everybody is done both semaphores are as they were made |
| RwLockSafety.SoleReaderUpgrades | asyncband/src/rwlock/upgradable.rs:283-307 | with a reader limit of one the attempt of try_upgrade asks for nothing and cannot be lost |
| PoolSafety.PoolBound | asyncband/src/pool/bounded.rs:221-320 | in every run what is idle, checked out, being created or promised to a replenishment is at most max_size; no assertion fires, no count underflows; current_size counts the tracked objects; every object made is idle, with one client, or detached |
| PoolSafety.PlanKeeps | asyncband/src/pool/bounded.rs:221-262 | the amount replenish_to decides on fits beside everything the others are committed to, and the sum it computes does not overflow; both counts are read in one step, as the slot lock, held across the load of the permits, keeps the idle count still |
| PoolSafety.PopNoneKeeps | asyncband/src/pool/bounded.rs:277-293 | a creation started because nothing is idle is covered by the permit of that checkout |
| PoolSafety.DetachKeeps | asyncband/src/pool/bounded.rs:416-433 | neither the size assertion nor the checked subtraction can fail when an object is detached, after a failed check, a cancelled one or by the user |
| PoolSafety.ReturnKeeps | asyncband/src/pool/bounded.rs:398-414 | returning puts the object back in the queue while its permit is still held, without breaking the bound |
| PoolSafety.StoreKeeps | asyncband/src/pool/bounded.rs:262-272 | a replenished object takes up the share it was promised |
| PoolSafety.StepKeeps | asyncband/src/pool/bounded.rs:277-320 | every step keeps the bound and the tracking of objects |
| PoolSafety.AllReturned | asyncband/src/pool/bounded.rs:459-465 | when nobody uses the pool every permit is back and every tracked object is idle |
| PoolStates.PoolState.Pop | asyncband/src/pool/state.rs:64-69 | the oldest or the newest idle object, and the rest in order |
| PoolStates.PoolState.Retain | asyncband/src/pool/state.rs:92-136 | kept objects stay in order, the others are handed out and no longer counted; if the predicate panics nothing is lost |
| PoolStates.PoolState.ScanKept | asyncband/src/pool/state.rs:97-108 | the first loop leaves the queue as it is up to the first object to remove |
| PoolStates.PoolState.Compact | asyncband/src/pool/state.rs:110-122 | the second loop's swaps bring the kept objects to the front in order and permute the rest |
| PoolStates.Compacted | asyncband/src/pool/state.rs:124-134 | once the kept ones are in front, the rest are exactly the discarded ones |
| PoolRefinement.Follow | asyncband/src/pool/state.rs:64-136 | one step of the pool machine, carried out by the slot state's own methods, leaves the same objects in the same order and the same count, and hands out the object the machine's checkout gets |
| PoolRefinement.Replay | asyncband/src/pool/state.rs:64-136 | so does every run: the slot state ends with the run's idle objects and count, a panicking retain being the machine's panicking step |
| Broadcast.Backlog.constructor | asyncband/src/broadcast/mpmc/common.rs:149-158 | a new backlog has no subscriptions and nothing buffered |
| Broadcast.Backlog.Publish | asyncband/src/broadcast/mpmc/common.rs:219-227 | every subscription's queue gains the message; with the version counter exhausted nothing changes |
| Broadcast.Backlog.PublishDiscarded | asyncband/src/broadcast/mpmc/common.rs:202-208 | without subscriptions nothing is kept and the head follows the tail |
| Broadcast.Backlog.PublishRetained | asyncband/src/broadcast/mpmc/common.rs:237-246 | the cursors that had caught up are counted at the new slot |
| Broadcast.Backlog.Subscribe | asyncband/src/broadcast/mpmc/common.rs:251-254 | a new subscription starts with an empty queue and disturbs no other |
| Broadcast.Backlog.Unsubscribe | asyncband/src/broadcast/mpmc/common.rs:256-271 | the other queues stay, and exactly the messages nobody can read any more are returned |
| Broadcast.Backlog.ReclaimVacated | asyncband/src/broadcast/mpmc/common.rs:328-353 | popping the slots without cursors stops at the slowest remaining cursor and loses no unread message |
| Broadcast.Backlog.Receive | asyncband/src/broadcast/mpmc/common.rs:273-317 | the subscription gets the head of its own queue; at most the head slot is vacated, exactly when its last reader leaves it |
| Broadcast.Backlog.Retained | asyncband/src/broadcast/mpmc/common.rs:164-166 | the backlog is as long as the longest queue |
| Broadcast.Backlog.Unread | asyncband/src/broadcast/mpmc/common.rs:176-182 | the distance to the tail is the length of the subscription's queue |
| Broadcast.Play | asyncband/src/broadcast/mpmc/common.rs:196-353 | every run gives the results of the reference with one queue per subscription, so what a kept subscription has received and has yet to read is what was published since it was made; a run stops early only on exhaustion of the version counter |
| Broadcast.GetsEverything | asyncband/src/broadcast/mpmc/common.rs:251-254 | in the reference a subscription receives every publication since it was made, once and in order |
| Broadcast.SubscriberGetsAll | asyncband/src/broadcast/mpmc/common.rs:251-317 | in the results of a whole run, the receives of a subscription give the publications since it was made, in order and once, and the rest is unread |
| Broadcast.Resumed | asyncband/src/broadcast/mpmc/common.rs:196-353 | a run can be split anywhere: queues and results compose |
| Desks.Desk.Enter | asyncband/src/mpmc/queue.rs:297-303 | a new future has no node and no place in line |
| Desks.Desk.Seat | asyncband/src/mpmc/queue.rs:387-389 | what a future finds in its node: in line, chosen and for what, or nothing |
| Desks.Desk.Join | asyncband/src/mpmc/queue.rs:154-166 | linking a node at the back is joining the line |
| Desks.Desk.Refresh | asyncband/src/mpmc/queue.rs:154-163 | replacing a node's waker keeps the future's place in line |
| Desks.Desk.Register | asyncband/src/mpmc/queue.rs:133-148 | a future in line keeps its place; one notified in vain has its node removed and joins again at the end |
| Desks.Desk.SelectFirst | asyncband/src/mpmc/queue.rs:121-127 | detaching the head of the linked list chooses the first in line, wakes exactly its registered task and changes nobody else |
| Desks.Desk.SelectAll | asyncband/src/condvar/mod.rs:148-163 | the loop chooses everyone in line and wakes them in order, and leaves those already chosen alone |
| Desks.Desk.Settle | asyncband/src/mpmc/queue.rs:114-118 | removing a node, linked or detached, takes its future out of the line and leaves the order of the others |
| Desks.Desk.Leave | asyncband/src/mpmc/queue.rs:417-440 | the same when the future is dropped |
| Desks.Desk.Disconnect | asyncband/src/mpmc/queue.rs:211-225 | replacing the list and draining the old one wakes everyone in line once, in order, and leaves nobody waiting |
| Desks.WakeAll | asyncband/src/mpmc/queue.rs:176-182 | the draining loop wakes everyone linked, in order |
| Desks.ShowsWf | asyncband/src/mpmc/queue.rs:103-112 | futures and nodes correspond one to one, so the line has no repeats and holds exactly the futures whose nodes wait |
| MpmcModel.StepKeeps | asyncband/src/mpmc/queue.rs:52-100 | every operation keeps: free, queued, reserved and granted slots add up to the capacity; a sender is in line only when nothing is free; a receiver only while every queued value is announced; nobody waits for a side that is gone |
| MpmcModel.RunKeeps | asyncband/src/mpmc/queue.rs:52-100 | the same in every run |
| MpmcModel.Fifo | asyncband/src/mpmc/queue.rs:85-100 | in every run what has been received, followed by what is queued, is what was accepted, in order, while a receiver lives, and a prefix of it afterwards |
| MpmcModel.NextDelivery | asyncband/src/mpmc/queue.rs:91-100 | after any run a receive gets the oldest value not yet received, and none only when all have been, empty or disconnected by the senders left |
| MpmcModel.NextAcceptance | asyncband/src/mpmc/queue.rs:57-68 | after any run a send is refused as full exactly when accepted but not received values, permits and grants fill the capacity, and as disconnected exactly without receivers |
| MpmcModel.NobodyForgotten | asyncband/src/mpmc/queue.rs:70-100 | in every state, whoever leaves a line by another's operation is woken by it |
| MpmcModel.NoOvertaking | asyncband/src/mpmc/queue.rs:379-413 | over any number of operations, while a reservation stays in line slots go only to those ahead of it: no try_send, no try_reserve, no later reservation succeeds |
| Mpmc.Queue.constructor | asyncband/src/mpmc/queue.rs:194-205 | a new queue is the model's start |
| Mpmc.Queue.Release | asyncband/src/mpmc/queue.rs:70-82 | on the linked list: a slot let go of goes to the first sender in line, else becomes free, as in the model |
| Mpmc.Queue.Push | asyncband/src/mpmc/queue.rs:85-88 | on the linked list: the value goes last and the first receiver in line is told, as in the model |
| Mpmc.Queue.Pop | asyncband/src/mpmc/queue.rs:91-100 | the first value comes out and its slot is passed on, as in the model |
| Mpmc.Queue.TrySend | asyncband/src/mpmc/queue.rs:262-278 | follows the model: state, answer and tasks woken |
| Mpmc.Queue.TryReserve | asyncband/src/mpmc/queue.rs:292-295 | follows the model: a permit owns the slot it took |
| Mpmc.Queue.SendWithPermit | asyncband/src/mpmc/queue.rs:346-361 | follows the model: the value takes over the permit's slot, or is refused and the permit dropped |
| Mpmc.Queue.DropPermit | asyncband/src/mpmc/queue.rs:364-370 | follows the model: the slot is passed on |
| Mpmc.Queue.PollReserve | asyncband/src/mpmc/queue.rs:379-413 | follows the model: a grant is claimed, a place in line kept, a free slot taken or the line joined |
| Mpmc.Queue.DropReserve | asyncband/src/mpmc/queue.rs:417-440 | follows the model: a granted slot is passed on |
| Mpmc.Queue.PollRecv | asyncband/src/mpmc/queue.rs:449-478 | follows the model: the first value, or a place in line, or disconnection only when empty |
| Mpmc.Queue.DropRecv | asyncband/src/mpmc/queue.rs:481-505 | follows the model: an unused notice goes to the next receiver while a value waits |
| Mpmc.Queue.TryRecv | asyncband/src/mpmc/queue.rs:305-311 | follows the model |
| Mpmc.Queue.DropSender | asyncband/src/mpmc/queue.rs:211-225 | follows the model: the last sender to go wakes everyone in line, in order |
| Mpmc.Queue.DropReceiver | asyncband/src/mpmc/queue.rs:231-248 | follows the model: the last receiver to go discards the queued values and wakes every sender in line, in order |
| Mpmc.Play | asyncband/src/mpmc/queue.rs:52-183 | every run of the queue over its linked lists gives the model's answers and wakes, operation by operation, and leaves the model's queue; received and queued values are the accepted ones, in order |
| SpmcModel.AtMostTheSender | asyncband/src/spmc/bounded.rs:83-95 | the exclusively borrowed sender is alone in its line |
| SpmcModel.StepKeeps | asyncband/src/spmc/queue.rs:49-71 | every operation keeps: the capacity, a send in line only while the queue is full, a receiver in line only while every queued value is announced, nobody waiting for a side that is gone |
| SpmcModel.RunKeeps | asyncband/src/spmc/queue.rs:49-71 | the same in every run |
| SpmcModel.Fifo | asyncband/src/spmc/queue.rs:56-71 | in every run what has been received, followed by what is queued, is what was accepted, in order, while a receiver lives, and a prefix of it afterwards; a pending send still owns the value it was made with |
| SpmcModel.NextDelivery | asyncband/src/spmc/queue.rs:62-71 | after any run a receive gets the oldest value not yet received, and none only when all have been |
| SpmcModel.NextAcceptance | asyncband/src/spmc/queue.rs:179-194 | after any run a send is refused as full exactly when accepted but not received values fill the capacity |
| SpmcModel.NobodyForgotten | asyncband/src/spmc/queue.rs:56-71 | in every state, whoever leaves a line by another's operation is woken by it |
| Spmc.Queue.constructor | asyncband/src/spmc/queue.rs:130-141 | a new queue is the model's start |
| Spmc.Queue.Push | asyncband/src/spmc/queue.rs:56-59 | on the linked list: the value goes last and the first receiver in line is told, as in the model |
| Spmc.Queue.Pop | asyncband/src/spmc/queue.rs:62-71 | on the linked list: the first value comes out and a waiting sender is told there is room, as in the model |
| Spmc.Queue.TrySend | asyncband/src/spmc/queue.rs:179-194 | follows the model: state, answer and tasks woken |
| Spmc.Queue.PollSend | asyncband/src/spmc/queue.rs:243-269 | follows the model: the value is given away exactly once, or the send waits in line |
| Spmc.Queue.DropSend | asyncband/src/spmc/queue.rs:273-287 | follows the model: no node stays behind |
| Spmc.Queue.PollRecv | asyncband/src/spmc/queue.rs:295-324 | follows the model: the first value, or a place in line, or disconnection only when empty |
| Spmc.Queue.DropRecv | asyncband/src/spmc/queue.rs:327-351 | follows the model: an unused notice goes to the next receiver while a value waits |
| Spmc.Queue.TryRecv | asyncband/src/spmc/queue.rs:210-216 | follows the model |
| Spmc.Queue.DropSender | asyncband/src/spmc/queue.rs:143-154 | follows the model: everyone in line is woken, in order |
| Spmc.Queue.DropReceiver | asyncband/src/spmc/queue.rs:160-177 | follows the model: the last receiver to go discards the queued values and wakes the sender |
| Spmc.Play | asyncband/src/spmc/queue.rs:49-118 | every run of the queue over its linked lists gives the model's answers and wakes, operation by operation, and leaves the model's queue, within the capacity; received and queued values are the accepted ones, in order |
| Barriers.StepKeeps | asyncband/src/phaser/mod.rs:177-184 | every operation of the reference keeps: an arrival is from the current phase or the one before; an open phase with members is not already over; a participant's wait in progress watches the phase it arrived in; nobody sleeps past the end of their phase or the close |
| Barriers.RunKeeps | asyncband/src/phaser/mod.rs:177-184 | the same in every run |
| Barriers.NobodySkipped | asyncband/src/phaser/mod.rs:434-496 | a phase that a member has not arrived in completes only after a step, during it, by which that member really arrives in it or withdraws - not one that is refused, and not a wait for an earlier arrival; a batch holds it back until it is dropped or yields a member |
| Barriers.HeldBack | asyncband/src/phaser/mod.rs:434-496 | until then, over any number of steps, the phase stays and the member or batch is missing in it |
| Barriers.StepEndsPhase | asyncband/src/phaser/mod.rs:177-184 | a step that moves the phase moves it by one and leaves no party missing in the old one, whoever joined and whenever |
| Barriers.PhaseEnds | asyncband/src/phaser/mod.rs:177-184 | in every run that goes beyond a phase there is the step that ended it, after which every party had arrived in it or withdrawn |
| Barriers.OnlyOwnArrivals | asyncband/src/phaser/mod.rs:434-496 | a party changes by its own operations only, and an arrival it gains is in the current phase |
| Barriers.RetriesSamePhase | asyncband/src/phaser/mod.rs:461-469 | in every run, however often a participant's wait is cancelled and begun again and whatever the others do, its arrival stays the one it made, until it arrives anew, withdraws or a wait succeeds; attempts that are refused or find the phaser closed change nothing |
| Barriers.StepRetries | asyncband/src/phaser/mod.rs:461-466 | a wait begun again with an arrival pending completes no phase and wakes nobody: it does not count twice |
| Barriers.WaitAnswers | asyncband/src/phaser/mod.rs:186-195 | in every reachable state a participant's wait answers with the phase after its arrival once that is over, closed or not; otherwise Closed if closed, else pending |
| Barriers.OutcomesLast | asyncband/src/phaser/mod.rs:186-195 | a completed phase stays completed even after a close, and closing freezes the phase and every later outcome |
| Barriers.NobodyForgotten | asyncband/src/phaser/mod.rs:177-184 | a wait that is no longer registered, and not by its own doing, is woken |
| Barriers.CycleHides | asyncband/src/phaser/mod.rs:186-195 | 64-bit phase numbers tell an observer whether its phase is over, except exactly when the phaser is a whole number of cycles further on |
| Phasers.Phaser.constructor | asyncband/src/phaser/mod.rs:218-228 | a new phaser is the reference with no parties, at phase zero |
| Phasers.Phaser.AdvanceIfReady | asyncband/src/phaser/mod.rs:177-184 | the counter reaches zero exactly when everybody has arrived; then the phase moves on by one, wrapping, and everyone asleep is woken |
| Phasers.Phaser.DoRegister | asyncband/src/phaser/mod.rs:310-323 | refused when closed, rejected with nothing changed exactly when the members would exceed the word size, otherwise they join the current phase |
| Phasers.Phaser.RegisterOne | asyncband/src/phaser/mod.rs:282-287 | follows the reference: one member joins the current phase |
| Phasers.Phaser.Register | asyncband/src/phaser/mod.rs:301-308 | follows the reference: a batch joins the current phase in one transition |
| Phasers.Phaser.Next | asyncband/src/phaser/mod.rs:366-373 | follows the reference: yielding changes no obligation |
| Phasers.Phaser.DropParticipants | asyncband/src/phaser/mod.rs:384-398 | follows the reference: members not yielded withdraw in one transition, and neither count underflows |
| Phasers.Phaser.Arrive | asyncband/src/phaser/mod.rs:434-448 | follows the reference: counts once per phase however often it is called, and does not underflow |
| Phasers.Phaser.Deregister | asyncband/src/phaser/mod.rs:480-497 | follows the reference: a withdrawal discharges an outstanding arrival exactly if there is one |
| Phasers.Phaser.Close | asyncband/src/phaser/mod.rs:244-254 | follows the reference: the phase is frozen and everyone asleep is woken |
| Phasers.Phaser.PollFuture | asyncband/src/phaser/mod.rs:517-528 | comparing wrapped numbers shows a wait what the reference shows; pending, its task is in the waker set, once |
| Phasers.Phaser.DropFuture | asyncband/src/phaser/mod.rs:531-543 | a dropped wait leaves the waker set exactly if it is in it |
| Phasers.Phaser.PollObserver | asyncband/src/phaser/mod.rs:517-528 | follows the reference |
| Phasers.Phaser.DropObserver | asyncband/src/phaser/mod.rs:531-543 | follows the reference |
| Phasers.Phaser.BeginWait | asyncband/src/phaser/mod.rs:461-466 | follows the reference: a wait arrives only if no arrival is pending, and otherwise watches the pending one |
| Phasers.Phaser.PollWait | asyncband/src/phaser/mod.rs:461-469 | follows the reference: the arrival is forgotten only once its phase has been seen to complete |
| Phasers.Phaser.CancelWait | asyncband/src/phaser/mod.rs:531-543 | follows the reference: cancelling keeps the arrival |
| Phasers.PendingIs | asyncband/src/phaser/mod.rs:434-442 | comparing wrapped numbers tells whether a participant has arrived in the current phase |
| Phasers.NoneMissing | asyncband/src/phaser/mod.rs:177-184 | the count of the missing is zero exactly when everybody has arrived |
| Phasers.WakesAll | asyncband/src/phaser/mod.rs:177-184 | the waker set holds exactly the tasks of the sleeping waits |
| Phasers.WaitIs | asyncband/src/phaser/mod.rs:461-469 | a participant's wait is always less than a cycle old |
| Phasers.Phaser.Counts | asyncband/src/phaser/mod.rs:231-272 | phase number, members and missing members are the reference's, and an open phaser with members misses someone |
| Phasers.Play | asyncband/src/phaser/mod.rs:177-184 | every run, with participant and observer waits begun, polled and cancelled at any time, gives the reference's answers with phase numbers wrapped, and its wakes, operation by operation; the final counts are members and missing members |
| Coalescing.StepKeeps | asyncband/src/singleflight/mod.rs:74-148 | every step of every call keeps: an entry without a value in the table is somebody's, a permit has one owner, a call that has a value has its entry's |
| Coalescing.RunStoredStays | asyncband/src/singleflight/mod.rs:74-148 | a stored value never changes, in any run |
| Coalescing.CleanupKeeps | asyncband/src/singleflight/mod.rs:124-148 | the test for two owners removes an abandoned entry exactly when the table and this call are its only owners |
| Coalescing.OneInFlight | asyncband/src/singleflight/mod.rs:287-374 | in every run at most one function is in flight for an entry, always, and at most one for a key among the calls whose own entry was not detached by forgetting it |
| Coalescing.SameResult | asyncband/src/singleflight/mod.rs:287-302 | calls that shared an entry return the same value |
| Coalescing.OncePerKey | asyncband/src/once/once_map/mod.rs:311-349 | a map returns one value for a key to every call ever whose own entry was not detached by a removal |
| Coalescing.OnlyForgetDetaches | asyncband/src/once/once_map/mod.rs:141-154 | no entry of a key is detached in a run that does not forget that key |
| Coalescing.NothingAbandoned | asyncband/src/once/once_map/mod.rs:156-179 | when no call is left a group's table is empty and a map holds initialised entries only, whatever errors, cancellations and panics there were |
| Coalescing.RecheckKeeps | asyncband/src/once/once_cell/mod.rs:153-171 | the second look, under the permit: a function is started only for an entry that has no value, and a value found there is the one returned |
| Coalescing.SetValueKeeps | asyncband/src/once/once_cell/mod.rs:383-386 | a value is stored only by the owner of the permit, into an entry that has none, and no other call is then running for that entry |
| AutoResetModel.EverySignal | asyncband/src/event/auto_reset.rs:204-251 | in every run sets plus the initial signal equal waits released, the stored signal, assigned signals, signals cleared by resets that found one, and signals that met a stored one with nobody in line; and a stored signal and a wait in line never coexist |
| AutoResetModel.StepKeeps | asyncband/src/event/auto_reset.rs:276-286 | the same, operation by operation: a signal is merged exactly when nobody is in line and one is stored |
| AutoResetModel.NobodyForgotten | asyncband/src/event/auto_reset.rs:276-286 | whoever leaves the line by another's operation is woken by it |
| AutoResetModel.NoOvertaking | asyncband/src/event/auto_reset.rs:204-232 | over any number of operations, while a wait stays in line signals go only to those ahead of it: no try and no later wait succeeds |
| AutoReset.Event.constructor | asyncband/src/event/auto_reset.rs:91-98 | an event may start with a stored signal |
| AutoReset.Event.Signal | asyncband/src/event/auto_reset.rs:276-286 | on the linked list: the first in line is selected and woken, or the signal is stored, as in the model |
| AutoReset.Event.Set | asyncband/src/event/auto_reset.rs:105-110 | follows the model: state and tasks woken |
| AutoReset.Event.Reset | asyncband/src/event/auto_reset.rs:116-118 | follows the model: clears a stored signal and nothing that is assigned |
| AutoReset.Event.TryWait | asyncband/src/event/auto_reset.rs:156-158 | follows the model: consumes a stored signal exactly if there is one |
| AutoReset.Event.PollWait | asyncband/src/event/auto_reset.rs:204-232 | follows the model: a wait in line is released exactly when it has been selected and keeps its place until then; a new one takes a stored signal or joins at the end |
| AutoReset.Event.DropWait | asyncband/src/event/auto_reset.rs:234-251 | follows the model: a selected wait passes its signal to the next in line or stores it |
| AutoReset.Play | asyncband/src/event/auto_reset.rs:204-251 | every run of the event over its linked list gives the model's answers and wakes, operation by operation; released, stored, assigned, cleared and merged signals add up to the sets and the initial one |
| CondvarModel.EveryNotification | asyncband/src/condvar/mod.rs:327-414 | in every run the calls of notify_one that woke someone equal the relocks by a task that carried the notification, those under way with a waiter or a baton, and the give-ups of a carrier with nobody else in line |
| CondvarModel.StepKeeps | asyncband/src/condvar/mod.rs:327-414 | the same, operation by operation, and who holds the mutex and who is in line at each stage of a wait |
| CondvarModel.PassedOn | asyncband/src/condvar/mod.rs:367-414 | a carrier that gives up with someone else in line makes the next in line a carrier and wakes it |
| CondvarModel.NotifierSeesWaiter | asyncband/src/condvar/mod.rs:327-341 | in every run a wait that no longer holds the mutex and has not been relocking is in line or already notified, whoever holds the mutex |
| CondvarModel.NobodyForgotten | asyncband/src/condvar/mod.rs:90-163 | whoever leaves the line other than by giving up is woken |
| Condvars.Condvar.NotifyOne | asyncband/src/condvar/mod.rs:133-142 | on the linked list: the first in line is notified and woken; with nobody in line nothing changes |
| Condvars.Condvar.NotifyAll | asyncband/src/condvar/mod.rs:148-163 | exactly the waiters in line are released and woken, in order, without batons |
| Condvars.Condvar.Register | asyncband/src/condvar/mod.rs:327-341 | the first poll joins the line with the guard still held |
| Condvars.Condvar.DropGuard | asyncband/src/condvar/mod.rs:333-341 | then the mutex is let go |
| Condvars.Condvar.PollParked | asyncband/src/condvar/mod.rs:343-362 | ready exactly when notified, with a baton exactly for notify_one; otherwise the current task is the one to be woken |
| Condvars.Condvar.Relock | asyncband/src/condvar/mod.rs:179-192 | the wait ends when the mutex is held again |
| Condvars.Condvar.DropWait | asyncband/src/condvar/mod.rs:366-414 | follows the model: whoever gives up with a notification passes it on |
| Condvars.Condvar.DropBaton | asyncband/src/condvar/mod.rs:408-414 | a dropped baton notifies the next in line |
| Condvars.Condvar.DropFuture | asyncband/src/condvar/mod.rs:366-389 | a dropped wait leaves no node behind and passes on a notification from notify_one |
| Condvars.Play | asyncband/src/condvar/mod.rs:327-414 | every run of the condition variable over its linked list gives the model's answers and wakes, operation by operation; selections are completions, notifications under way and discards |
| Mpsc.SegmentFits | asyncband/src/mpsc/unbounded/buffer.rs:31-41 | for value sizes 1 to 32768 a segment is a power of two of values, within 32 KiB, and no larger power is |
| Mpsc.CapacityIs | asyncband/src/mpsc/unbounded/buffer.rs:31-41 | the shift by the leading zeros gives the largest power of two up to the limit |
| Mpsc.Buffer.IsEmpty | asyncband/src/mpsc/unbounded/buffer.rs:52-55 | empty exactly when no message is buffered |
| Mpsc.Buffer.Push | asyncband/src/mpsc/unbounded/buffer.rs:57-64 | the message goes last; sealed segments are exactly full |
| Mpsc.Buffer.Refill | asyncband/src/mpsc/unbounded/buffer.rs:68-88 | the batch is the front of the contents, nothing else moves; oversized values come one at a time |
| Mpsc.Channel.PopBatch | asyncband/src/mpsc/unbounded/buffer.rs:91-102 | the oldest pending message comes out, and an oversized value leaves the batch empty |
| MpscModel.Fifo | asyncband/src/mpsc/unbounded/receiver.rs:97-114 | in the plain queue, in every run: received followed by pending is what was accepted, in order, while the receiver lives; a receiver is parked only with nothing pending and a sender left |
| MpscModel.NextDelivery | asyncband/src/mpsc/unbounded/receiver.rs:97-114 | after any run a receive gets the oldest message not yet received, and none only when all have been |
| Mpsc.Channel.EnsureBatch | asyncband/src/mpsc/unbounded/receiver.rs:97-114 | moving a segment into the receiver's batch changes nothing that is pending |
| Mpsc.Channel.Send | asyncband/src/mpsc/unbounded/sender.rs:74-87 | over segments: like the plain queue, accepted exactly while the receiver lives, waking a parked receiver |
| Mpsc.Channel.DropSender | asyncband/src/mpsc/unbounded/sender.rs:47-62 | like the plain queue: the last sender to go wakes a parked receiver |
| Mpsc.Channel.TryRecv | asyncband/src/mpsc/unbounded/receiver.rs:97-114 | over batch and segments: like the plain queue, the oldest pending message, or empty, or disconnected |
| Mpsc.Channel.PollRecv | asyncband/src/mpsc/unbounded/receiver.rs:195-219 | the same, parking with nothing pending and a sender left |
| Mpsc.Channel.DropReceiver | asyncband/src/mpsc/unbounded/receiver.rs:51-65 | what is pending is discarded together with the waker |
| Mpsc.Play | asyncband/src/mpsc/unbounded/receiver.rs:97-219 | every run, for values of any size, gives the answers and wakes of the plain queue, operation by operation: segments and batches never show |
| OneshotAnswers.AnswerIsRight | asyncband/src/oneshot/receiver.rs:120-156 | after every run, whatever is done next: a try_recv or poll answers once, when it returns, and rightly - with the message if the sender is done, one was sent and none received; with a disconnection if the sender is done otherwise; with empty or pending before that - and the message is delivered by the very call that answers with it |
| OneshotAnswers.AnswersSettle | asyncband/src/oneshot/receiver.rs:120-156 | in every run as many calls answered with a message as messages were delivered, at most one, and whatever is asked after a message or a disconnection is answered with a disconnection |
| OneshotAnswers.NothingThrownAway | asyncband/src/oneshot/receiver.rs:200-206 | in every run without a drop of the receiver no message is discarded or handed back: it is delivered or waits to be |
| OneshotAnswers.SentWhatWasSent | asyncband/src/oneshot/sender.rs:60-86 | a message was sent exactly if the sender's one call was send |
| OneshotAnswers.SendFails | asyncband/src/oneshot/sender.rs:86-124 | a send fails exactly if the receiver is gone when it is published |
| OneshotAnswers.ErrorKeepsMessage | asyncband/src/oneshot/sender.rs:232-266 | over any run, whoever holds the error of a failed send and does not drop it still has the message, and gets it back on asking |
| OneshotAnswers.LatestPollerWoken | asyncband/src/oneshot/receiver.rs:224-310 | in every run it is the task of the latest poll that waits, and that has been woken once the sender has finished |
| OneshotAnswers.WaitingIsRegistered | asyncband/src/oneshot/receiver.rs:224-310 | a poll that answers with waiting leaves its task where the sender will find it; it wakes itself only if the sender is already waking |
| OneshotAnswers.CallAdvances | asyncband/src/oneshot/receiver.rs:224-310 | whatever the sender does, each step of a call brings it nearer to its answer, at most six in all |
| OneshotAnswers.SendAdvances | asyncband/src/oneshot/sender.rs:60-124 | a send or a drop of the sender is over after four steps of its own at most |
| OneshotAnswers.CallsTakeEffect | asyncband/src/oneshot/receiver.rs:73-80 | the handle becomes a future, a drop begins, a dropped error discards its message and frees the channel |
| SemaphoreOutcomes.TryAlone | asyncband/src/internal/semaphore.rs:81-99 | an undisturbed try_acquire takes all it asks for exactly if that much is available, and otherwise changes nothing |
| SemaphoreOutcomes.DrainAlone | asyncband/src/internal/semaphore.rs:104-125 | an undisturbed drain takes what is available, up to what it was told to, and nothing else changes |
| SemaphoreOutcomes.SeenWasThere | asyncband/src/internal/semaphore.rs:81-125 | in every run the count an operation acts on was the count at some moment since it began |
| SemaphoreOutcomes.TryGivesUp | asyncband/src/internal/semaphore.rs:81-99 | in every run a try_acquire that comes back with nothing came upon a moment, since it was called, with fewer permits than it asked for |
| SemaphoreOutcomes.DrainStep | asyncband/src/internal/semaphore.rs:104-125 | under interference too, a drain ends by taking at once as much as there is of what it asked for |
| SemaphoreOutcomes.RemovesWhatWasAsked | asyncband/src/internal/semaphore.rs:127-165 | in every run reductions have removed exactly what they were called for, less what those under way have still to remove, and releases have brought back exactly what was released |
| SemaphoreOutcomes.DistributeAlone | asyncband/src/internal/semaphore.rs:229-281 | an undisturbed distribution ends |
| SemaphoreOutcomes.ReleaseAlone | asyncband/src/internal/semaphore.rs:144-165 | so does every release |
| RwLockOutcomes.SetsOut | asyncband/src/rwlock/upgradable.rs:131-200 | a call sets out on its own operation, from nothing or, for upgrades, from an upgradable guard |
| RwLockOutcomes.StepOfErrand | asyncband/src/rwlock/upgradable.rs:131-330 | whatever happens, an operation under way goes on, ends with the guard it is for, or is lost: a waiting one by being cancelled, a try by finding too few permits |
| RwLockOutcomes.EndsAsItShould | asyncband/src/rwlock/upgradable.rs:131-330 | the same over every run: read and try_read end with a read guard, write, try_write, upgrade and try_upgrade with a write guard, the upgradable ones with theirs; a lost try_upgrade leaves the upgradable guard |
| RwLockOutcomes.GuardsOwn | asyncband/src/rwlock/upgradable.rs:205-235 | a read guard owns one data permit, an upgradable one the reservation too, a writer every data permit, an idle client nothing |
| RwLockOutcomes.TryReadWins | asyncband/src/rwlock/upgradable.rs:143-146 | an undisturbed try_read gets a guard exactly if a reader slot is free |
| RwLockOutcomes.TryUpgradeWins | asyncband/src/rwlock/upgradable.rs:300-307 | an undisturbed try_upgrade gets write access exactly if all other slots are free, and otherwise leaves the guard as it was |
| RwLockOutcomes.TryReservedWins | asyncband/src/rwlock/upgradable.rs:164-204 | an undisturbed try_write or try_upgradable_read succeeds exactly if the reservation and the slots it needs are free; failing after the reservation leaves only that to be dropped |
| RwLockOutcomes.FreeLockIsHad | asyncband/src/rwlock/upgradable.rs:143-204 | on a lock that nobody uses every try succeeds |
| RwLockOutcomes.GrantedGoesOn | asyncband/src/rwlock/upgradable.rs:139-190 | a waiting operation goes on with the first poll after its permits were granted, and not before |
| RwLockOutcomes.DropsTakeEffect | asyncband/src/rwlock/access.rs:81-132 | on a free thread a destructor takes its guard or its reservation away |
| RwLockOutcomes.DowngradesToRead | asyncband/src/rwlock/upgradable.rs:309-322 | a downgrade leaves a read guard |
| RwLockOutcomes.WritersStore | asyncband/src/rwlock/access.rs:86-132 | a writer's store is what is read from then on, and nobody else's is |
| PoolOutcomes.PlanIsMost | asyncband/src/pool/bounded.rs:228-247 | the plan of replenish_to is the largest number of creations that stays within its reservation, the target, and the room the others leave under the maximum |
| PoolOutcomes.ReplenishReaches | asyncband/src/pool/bounded.rs:221-262 | whenever an undisturbed replenish_to on a pool at rest, whose creations succeed, is over, as many objects are idle as were asked for and fit, or as were there before if more |
| PoolOutcomes.ReplenishEnds | asyncband/src/pool/bounded.rs:221-262 | and it can always be brought to that end, given objects to store |
| PoolGets.UsedWasChecked | asyncband/src/pool/bounded.rs:277-315 | in every run whoever uses an object had it created for them, or took it from the idle ones and its check passed |
| PoolGets.KeepsLooking | asyncband/src/pool/bounded.rs:277-315 | in every run a get that has its permit ends by finding an object, unless creation fails or the caller cancels, however many checks fail |
| PoolGets.FailedCheckRetries | asyncband/src/pool/bounded.rs:307-311 | an object that fails its check leaves the pool and the get tries again |
| PoolGets.LooksAtIdleFirst | asyncband/src/pool/bounded.rs:280-295 | an object is created only when none is idle; otherwise the oldest or newest idle one is checked, as configured |
| PoolGets.WhereObjectsGo | asyncband/src/pool/bounded.rs:398-432 | a returned object goes to the end of the idle queue, a detached one out of the pool |
| PoolGets.CancelledCheck | asyncband/src/pool/bounded.rs:565-579 | an object whose check is cancelled goes where the configured strategy says |
| PoolGets.StoppedCreation | asyncband/src/pool/bounded.rs:282-284 | a creation that fails or is cancelled leaves nothing but the permit, which goes next |
| PoolGets.GetAdvances | asyncband/src/pool/bounded.rs:277-315 | a get moves on with each event it waits for: permit, creation, check |
| PoolGets.GivesPermitBack | asyncband/src/pool/bounded.rs:493-500 | done with its object, a client gives its permit back |
| PoolGets.RetainsExactly | asyncband/src/pool/bounded.rs:373-385 | retain keeps what its predicate keeps, in order, and counts out the rest |
| Broadcast.NextReceive | asyncband/src/broadcast/mpmc/common.rs:273-317 | after any run a receive returns the oldest publication since the subscription that it has not had, and nothing exactly if it has had all |
| Broadcast.QueueForSubscribed | asyncband/src/broadcast/mpmc/common.rs:251-271 | there is a queue for exactly those who subscribed and have not unsubscribed since |
| Crowds.Registers | asyncband/src/mpmc/queue.rs:133-163 | whoever has to wait keeps their place or joins behind everyone, under the task that waits |
| MpmcHistory.HeldByCallers | asyncband/src/mpmc/queue.rs:207-248 | in every run endpoints, permits and futures are exactly those callers were given and still hold |
| MpmcHistory.OnlyWithoutRefused | asyncband/src/mpmc/queue.rs:207-248 | an operation is refused only to a caller who does not have what it needs |
| MpmcHistory.NextPolls | asyncband/src/mpmc/queue.rs:379-478 | after any run a receive's poll answers as try_recv, waiting where that finds nothing; a reservation waits exactly if in line, or new with the capacity filled; try_reserve fails exactly then |
| MpmcHistory.NextPermit | asyncband/src/mpmc/queue.rs:346-370 | a permit is good for one send while a receiver lives, and the value comes back otherwise |
| MpmcHistory.PendingIsInLine | asyncband/src/mpmc/queue.rs:387-462 | a poll that answers pending leaves its future in line with its task, where it was or behind everyone |
| MpmcHistory.PendingIsPlaced | asyncband/src/mpmc/queue.rs:379-505 | in every run a future whose latest poll answered pending is in line with that poll's task, unless that task has been woken since; and whoever has no pending poll is neither in line nor chosen |
| MpmcHistory.WokenHaveLeft | asyncband/src/mpmc/queue.rs:70-100 | whoever is woken has left a line they stood in: nobody is woken for nothing |
| SpmcHistory.HeldByCallers | asyncband/src/spmc/queue.rs:143-177 | in every run endpoints and futures are exactly those callers were given and still hold |
| SpmcHistory.OnlyWithoutRefused | asyncband/src/spmc/queue.rs:143-216 | an operation is refused only to a caller who does not have what it needs |
| SpmcHistory.NextPolls | asyncband/src/spmc/queue.rs:243-324 | after any run a receive's poll answers as try_recv, waiting where that finds nothing; a send's poll waits exactly if the capacity is filled |
| SpmcHistory.PendingIsInLine | asyncband/src/spmc/queue.rs:103-118 | a poll that answers pending leaves its future in line with its task |
| SpmcHistory.PendingIsPlaced | asyncband/src/spmc/queue.rs:243-351 | in every run a future whose latest poll answered pending is in line with that poll's task, unless that task has been woken since; and whoever has no pending poll is neither in line nor chosen |
| SpmcHistory.WokenHaveLeft | asyncband/src/spmc/queue.rs:56-71 | whoever is woken has left a line they stood in: nobody is woken for nothing |
| BarrierHistory.EndsWithTheLast | asyncband/src/phaser/mod.rs:177-184 | the phase ends with the operation of the last one missing, not before and not later |
| BarrierHistory.PhaseIsCounted | asyncband/src/phaser/mod.rs:231-234 | in every run the phase number is the number of phases that have ended |
| BarrierHistory.ArrivalAnswers | asyncband/src/phaser/mod.rs:434-496 | in every run an arrival and a withdrawal answer with that number, or closed, and an arrival is on record with it |
| BarrierHistory.ClosedByClose | asyncband/src/phaser/mod.rs:244-257 | the phaser is closed exactly once somebody has closed it |
| BarrierHistory.RegisterAnswers | asyncband/src/phaser/mod.rs:282-332 | registering is turned down when closed or full; otherwise the newcomers are missing in the phase that is on until they arrive, and nothing else changes |
| BarrierHistory.YieldAnswers | asyncband/src/phaser/mod.rs:366-373 | a batch hands out its members one by one, each missing in the phase that is on, until there are none |
| BarrierHistory.ObservationAnswers | asyncband/src/phaser/mod.rs:338-343 | in every run an observation is ready exactly once a phase has ended since it was made, and then answers with the phase that is on |
| BarrierHistory.StepKeepsObserving | asyncband/src/phaser/mod.rs:517-540 | an observation stays until it is answered or dropped |
| BarrierHistory.BeginsWait | asyncband/src/phaser/mod.rs:461-469 | a wait, once begun, is there to be polled, for the phase its participant arrived in |
| BarrierHistory.EndsWait | asyncband/src/phaser/mod.rs:461-474 | cancelled or closed, a wait leaves its arrival; answered with a phase, none |
| BarrierHistory.PendingIsPlaced | asyncband/src/phaser/mod.rs:517-530 | in every run a wait whose latest poll answered pending is registered under that poll's task, unless that task has been woken since |
| BarrierHistory.DropsObservation | asyncband/src/phaser/mod.rs:532-545 | dropping an observation ends it and touches nothing else |
| BarrierHistory.WokenAtTheEnd | asyncband/src/phaser/mod.rs:177-184 | waits are woken at the end of a phase and by the close, all that are registered, and at no other time |
| CoalescingCalls.OwnKey | asyncband/src/once/once_map/mod.rs:82-103 | in every run a call works on the entry of the very key it was made for, the key being taken from the history |
| CoalescingCalls.KeysApart | asyncband/src/once/once_map/mod.rs:82-103 | calls for different keys never share an entry |
| CoalescingCalls.ComputedForKey | asyncband/src/singleflight/mod.rs:287-374 | in every run the value a call returns was computed during the run, for the entry they share, by a call made for the same key |
| CoalescingCalls.FailsByItself | asyncband/src/singleflight/mod.rs:287-374 | a call fails only if it gave up itself |
| CoalescingCalls.RunBooks | asyncband/src/once/once_cell/mod.rs:153-171 | in every run a permit that is taken is owned by a call that is at work on that very entry |
| CoalescingCalls.NobodyIsStuck | asyncband/src/once/once_cell/mod.rs:153-171 | in every run each call's next step brings it nearer to its end, unless it waits for a permit whose owner is such a call |
| CoalescingCalls.ForgottenStartsAfresh | asyncband/src/singleflight/mod.rs:376-387 | a key that is forgotten starts afresh |
| CoalescingCalls.JoinsWhatIsThere | asyncband/src/singleflight/mod.rs:74-95 | a call for a key in the table joins the entry that is there |
| CoalescingCalls.StoredIsReturned | asyncband/src/once/once_map/mod.rs:311-349 | what an entry holds is returned without waiting |
| AutoResetHistory.HeldByCallers | asyncband/src/event/auto_reset.rs:172-176 | in every run the event's waits are those its callers began and still hold |
| AutoResetHistory.OnlyWithoutRefused | asyncband/src/event/auto_reset.rs:172-176 | an operation is refused only for a wait that is not there, or there already |
| AutoResetHistory.NextAnswers | asyncband/src/event/auto_reset.rs:204-232 | after any run a try, and a new wait, are released exactly if a signal is left over; a selected wait is, and one in line is not |
| AutoResetHistory.PendingIsInLine | asyncband/src/event/auto_reset.rs:204-232 | a poll that answers pending leaves its wait in line with its task, where it was or behind everyone |
| AutoResetHistory.PendingIsPlaced | asyncband/src/event/auto_reset.rs:204-251 | in every run a wait whose latest poll answered pending is in line with that poll's task, unless that task has been woken since; and whoever has no pending poll is neither in line nor selected |
| AutoResetHistory.WokenHaveLeft | asyncband/src/event/auto_reset.rs:276-286 | whoever is woken has left the line they stood in: nobody is woken for nothing |
| CondvarHistory.HeldByCallers | asyncband/src/condvar/mod.rs:327-414 | in every run the mutex and the waits stand where their callers' operations have brought them |
| CondvarHistory.OnlyWithoutRefused | asyncband/src/condvar/mod.rs:327-414 | an operation is refused only to a caller who does not stand where it can be made |
| CondvarHistory.NotifyReaches | asyncband/src/condvar/mod.rs:133-163 | notify_one selects and wakes the first in line, if there is one, and notify_all everyone in line |
| CondvarHistory.PendingIsInLine | asyncband/src/condvar/mod.rs:327-362 | a poll that answers pending leaves its wait in line with its task |
| CondvarHistory.PendingIsPlaced | asyncband/src/condvar/mod.rs:327-389 | in every run a wait whose latest poll answered pending is in line with that poll's task, unless that task has been woken since |
| CondvarHistory.WokenHaveLeft | asyncband/src/condvar/mod.rs:90-163 | whoever is woken has left the line they stood in: nobody is woken for nothing |
| MpscModel.NextAcceptance | asyncband/src/mpsc/unbounded/sender.rs:74-87 | after any run a message is accepted exactly while the receiver lives |
| MpscModel.OnlyWithoutRefused | asyncband/src/mpsc/unbounded/sender.rs:47-62 | an operation is refused only to a caller without the endpoint it needs |
| MpscModel.PendingIsParked | asyncband/src/mpsc/unbounded/receiver.rs:195-219 | in every run senders are counted as they come and go, and a receiver whose latest poll answered pending is parked under its task or has been woken since, not both |

## Left out

- Memory orderings: atomic steps are sequentially consistent; Dafny has no relaxed-memory semantics.
- The semaphore at the level of atomics, the oneshot channel, the lock, the pool and the coalescing map are state machines over values, not objects updated in place; update in place and aliasing are captured for the linked list, the arena, the semaphore's loops and every class.
- `notify_all` and `release_if_waiters` of the internal semaphore: they serve the bounded broadcast sender and hand out permits that were never released.
- `contention_detected` is an arbitrary boolean: it is a performance hint.
- The phaser's waker set is a map of tokens and the broadcast's receivers a map of ids; that the arena behaves so is proved once, in `Arena`.
- Coalescing.OneInFlight: the cell's semaphore is reduced to the owner of its one permit, so waiters for it are not ordered here.
- Phasers.Phaser.PollObserver: assumes that an observation is not kept across 2^64 phases, as the documentation demands; for participants this is proved, in every run.
- Phasers.Phaser.DropObserver: assumes the same, since a registered observer that is dropped later would give back a place in the waker set that is no longer its own.
- Phasers.Play: assumes the same of the scripts it is given, and nothing else.
- Arenas.Arena.Insert: does not model the width of slot ids.
- Broadcast.Play: does not model the bounded channel's waiting producers, nor the receivers' wakers.
- Capacities, shrinking and retired allocations of deques, and hashing: tables are maps.
- A pool that is dropped while objects are out: its objects are then no longer tracked.
- The lock's mapped, owned and projected guards, `Send`/`Sync` bounds, pinning, raw pointers: matters of the type system.
- The bounded mpsc channel: the same accounting as the mpmc queue with one receiver.
- Barrier, latch, countdown, wait group, completion, watch, shutdown, manual-reset event, `Once`, `LazyCell`, the unbounded pool: simpler instances of the same patterns.
- `blocking`: depends on operating-system condition variables, threads and clocks.
- Error types, formatting, examples, benchmarks and test support.
