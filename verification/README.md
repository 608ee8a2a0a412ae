# Verified model of the CAS actor runtime

This project models the concurrent runtime of the CAS C++ actor framework in Dafny and proves what
its documentation promises of it: one thread per actor at a time, no message lost or stranded, hooks
run once, messages of one sender in order, and the tables and pointer structures all this rests on.

`dafny verify dfyconfig.toml` checks the whole project.

## How it is organised

Interleaved code is a state machine: every atomic load, store, exchange or compare-and-swap is one
step, `IsRun` says what a run is, an invariant is proved to be kept by every step, and the theorems
speak about every state of every run with any number of threads. Code that one thread (or one mutex
holder) executes is a class or a method with the source's own loops, proved against a specification
function or property.

| module | what it models |
|---|---|
| `ActorProtocol`, `ActorInvariant`, `ActorControl`, `ActorLedger`, `ActorTheorems`, `ActorStops`, `ActorArrivals`, `ActorProgress`, `ActorTurns`, `ActorStash`, `ActorLimits` | one pooled actor: `schedule`, `activate_after_start`, `run_actor`, `stop_actor`, `service_stop`, dispatch of `system_shutdown`, `complete_pending_stops`, `wait_for_shutdown`, against any number of producers and stoppers |
| `Parking` | `park_worker`, `wake_worker`, `shutdown` |
| `Mailbox`, `IntrusiveList`, `MailboxUse` | the mailbox on real linked nodes, refining two FIFO queues and a status; any sequence of its operations |
| `LinkedStack` | the stack of the mailbox and of the ready queue, link by link, under concurrent pushes and the owner's exchange |
| `MailboxOrder`, `MailboxRefinement` | the mailbox under concurrent pushes: counters, order, call priority; and that the linked stack does what its steps say |
| `ReadyQueue`, `WorkerTurns` | the ready queue on real linked nodes; turns, budget and waiting |
| `DequeueCounters`, `FreeList` | the optimistic dequeue counters and the reference-counted free list of the vendored queue |
| `MessagePool` | size classes, thread caches, shared lists and the cap |
| `SelectiveStash`, `StatefulDrain`, `PlainDrain` | selective receive, its order over runs, and the drain of a stopping actor, stateful or plain |
| `TimerManager`, `TimerRuns`, `ActorTimers` | the timer tables, what they promise over runs, and an actor's set of timers |
| `RelayOutbound` | the relay's outbound queues and back-pressure policies |

## Assumptions

- Steps are sequentially consistent and integers are unbounded: weak memory orderings and the
  wrap-around of counters are outside the model. Weak exchanges may fail.
- User handlers, the clock, the transport and the bulk operations of the pool's queue are inputs that
  may answer anything. A handler that sends or stops is one more producer or stopper.
- `create()` does not overlap the snapshot of `start()`. `wait_for_shutdown()` runs once, after
  activation, and not together with `stop_actor()`. The first is built into the model, which activates
  the actor once; the second is a precondition of the steps concerned.
- Stops are requested after activation (`!c.earlyStop`). This one is not only assumed: `ActorLimits`
  shows that it is exactly what is needed.
- In `ActorProtocol`, `has_messages()` answers no only if nothing is queued and nothing held is accepted;
  it may answer yes while a message is only on its way, since a push counts its message first. The
  deadline of a drain may strike at any moment. The token, the ledger, the hook counters and the modes
  asked for are history: no step reads them.
- In `MailboxOrder` a push may succeed whenever the mailbox is not closed, which covers every
  possible value it loaded before; each sender sends one message at a time.
- In `MessagePool` a thread may be active in several size classes at once, which adds runs and
  removes none.

## What turned out to be conditional

- A stop requested while `on_start()` is in progress can go unnoticed until `wait_for_shutdown()`:
  `activate_after_start` blocks the mailbox and, unlike `run_actor`, does not look at the stop phase
  again (source/system.cpp:509-520), so no worker carries the stop out.
  `ActorLimits.StrandedIffStoppedEarly` gives the exact condition.
- The comment at source/system.cpp:262-264 says that stops requested but not carried out are completed
  by `wait_for_shutdown()`. With `max_messages_per_turn` nonzero this fails for a drain that is between
  two turns when the worker exits: the worker is recorded as its executor, `service_stop` on the
  shutdown thread takes that to mean that the stop is in other hands, and the mailbox is never closed
  and `on_shutdown` never run. `ActorLimits.PendingStopsCompletedIffUnlimited` gives the exact
  condition; the model follows the code.
- An actor's wait for its turn is bounded exactly when the turn budget is not 0
  (`WorkerTurns.WaitBoundedIffBudget`).

## Model

| member | source | states |
|---|---|---|
| `ActorTheorems.SingleOwner` | source/system.cpp:570-617 | In every reachable state of any number of producers, stoppers, the creator, the worker and the shutdown thread, the right to execute an activated pooled actor is in at most one place: its blocked mailbox, one thread between unblocking it and queueing it, one ready-queue entry, or its worker; it is nowhere only once the actor is stopped for good; the shutdown thread executes it only after the worker has exited |
| `ActorTheorems.NeverQueuedTwice` | include/cas/detail/ready_queue.h:31-36 | Whenever a step puts the actor on its ready queue it was not there, so the intrusive link is free |
| `ActorTheorems.NothingStranded` | source/system.cpp:604-616 | No reachable state has an idle (blocked) actor with a message queued, or with a stop requested that no stopper and no worker re-check is bound to notice |
| `ActorTheorems.PopFindsOpenMailbox` | source/mailbox.cpp:81-97 | Whenever an executor is inside pop() the mailbox word is neither blocked nor closed, so take_head(empty) never overwrites a tag |
| `ActorTheorems.EveryStepAdvances` | source/system.cpp:784-810 | Along every step the state only moves running, stopping, stopped; a closed mailbox stays closed; hook counts never fall |
| `ActorTheorems.StopConservesMessages` | source/system.cpp:882-915 | Once a stop is complete every message whose enqueue was begun and is no longer in progress was dispatched exactly once or reported dead exactly once (a system_shutdown may be consumed instead), whether by drain, discard, drain timeout or a late push, and nothing is left queued or held |
| `ActorTheorems.FinishedEnqueuesEntered` | source/actor.cpp:154-232 | Every message whose enqueue was begun is either still being enqueued by some thread or has entered: it was queued, or refused and reported |
| `ActorTheorems.MessagesConserved` | source/actor.cpp:154-232 | At any moment a message that entered is in exactly one of the queues, an executor's hand, or the record of dispatched, dead and consumed messages |
| `ActorTheorems.HooksRunAtMostOnce` | source/actor.cpp:287-303 | on_shutdown and on_stop run at most once over any interleaving of stop callers, the owning thread and the system_shutdown dispatch; after on_stop nobody is processing a message; no stop claim means on_shutdown has not run |
| `ActorTheorems.NoHandlerAfterOnStop` | source/system.cpp:889-896 | After on_stop no handler is running, none is ever entered again and on_stop is not repeated |
| `ActorTheorems.WaitedActorIsStopped` | source/system.cpp:262-286 | When wait_for_shutdown() is done the actor is stopped and on_stop has run exactly once; on_shutdown has run if system shutdown claimed it, and for a requested stop exactly when that stop was completed |
| `ActorTheorems.OnlyHandlersDispatch` | source/actor.cpp:393-404 | Only the step that ends a handler counts a message as dispatched |
| `ActorStops.StopModeIsTheCallers` | source/system.cpp:795-799 | From the moment a claimed stop has recorded its mode, the recorded mode is the one asked for by the stop_actor() call whose claim succeeded; the argument a call carries up to its claim is the one it was made with |
| `ActorStops.StopIsFinal` | source/system.cpp:856-868 | A requested stop is never withdrawn and its mode never changes, system shutdown's claim stands, and an executor once claimed stays the executor |
| `ActorStops.DiscardHandlesAtMostOneMore` | source/system.cpp:870-876 | Over every run: after a stop in discard mode is requested at most the one message in progress is still handled, and none once the stop has an executor |
| `ActorStops.AcceptedDiesOnlyInStop` | source/actor.cpp:439-450 | A step makes a dead letter of a message that had been accepted only in a requested stop: one in discard mode, or one that has reached its final hooks |
| `ActorStops.AcceptedSurvivesDrain` | source/system.cpp:882-887 | Over every run: no accepted message becomes a dead letter as long as no discard is requested and no stop has reached its final hooks |
| `ActorStops.DrainEndsWithoutWork` | source/system.cpp:882-887 | A stop in drain mode reaches its final hooks only once its deadline has passed or with nothing left that the actor would handle |
| `ActorStops.DrainHandlesTheAccepted` | source/system.cpp:882-896 | A drain that ends before its deadline has handled every message accepted before; a stateful actor still holds only what its filter does not accept |
| `ActorStops.NextKeepsMode` | source/system.cpp:784-810 | Every step of every thread keeps the invariant that ties callers, recorded mode and executors together, and what a requested stop has settled |
| `ActorStops.ShutdownIsHonoured` | source/actor.cpp:283-303 | When a dispatched system_shutdown is consumed, either a stop_actor() call has claimed on_shutdown, or on_shutdown has run, once, and the actor takes no more messages |
| `ActorStops.ShutdownNeverDies` | source/actor.cpp:439-450 | A system_shutdown that was accepted is never reported as a dead letter |
| `ActorArrivals.RefusedOnlyWhenStopping` | source/actor.cpp:154-232 | A message that had not entered becomes a dead letter only if the actor is not running at that step, whether refused by the state check or by the closed mailbox |
| `ActorArrivals.SentAfterStopDies` | source/actor.cpp:154-163 | Over every run: a message whose enqueue begins once the actor is no longer running is never handled; when its enqueue is over it is a dead letter, exactly once |
| `ActorArrivals.EnqueueGoesLast` | source/mailbox.cpp:65-75 | A step of an enqueue leaves the queues alone or puts its message behind all that wait of its kind |
| `ActorArrivals.TakenInOrder` | source/mailbox.cpp:133-152 | A step of process_next_message takes the oldest message of a kind, an ordinary one only when no call is cached, and handles it or holds it behind what is held; looking for messages reorders nothing, and it gives up only when nothing waits |
| `ActorProgress.SoloStopCompletes` | source/system.cpp:882-947 | Left alone, a worker anywhere in service_stop carries the stop to its end once the deadline has passed: both hooks have run once, the mailbox is closed and empty, nothing was handled and, with StopConservesMessages, everything else is reported |
| `ActorProgress.SoloEnqueue` | source/actor.cpp:154-232 | From any reachable state an enqueue that is left alone finishes: its message has entered, and an actor that was running and blocked is in the ready queue |
| `ActorProgress.SoloHandle` | source/actor.cpp:393-404 | Left alone, a plain actor's worker at process_next_message handles exactly the oldest call waiting, else the oldest other message, and nothing else changes in the ledger |
| `ActorProgress.SoloIdle` | source/system.cpp:604-616 | A worker that finds nothing to do and is left alone blocks the mailbox and leaves run_actor |
| `ActorProgress.ExecutorsNeverStuck` | source/system.cpp:570-617 | Whoever executes the actor, worker or shutdown thread, always has a step to take |
| `ActorTurns.TurnHandlesWithinBudget` | source/system.cpp:576-602 | Over every run: between entering run_actor and leaving it the actor handles at most max_messages_per_turn messages, draining included |
| `ActorTurns.RunShowsTurns` | source/system.cpp:570-617 | Every run of the actor protocol is, state by state, a run of WorkerTurns with the same ready queue, the same turn in progress and the same budget, so its bound on waiting holds for the actor |
| `ActorStash.NoAcceptedMessageWaits` | source/selective_stash.cpp:85-88 | A stateful actor that is idle (blocked) holds no message that its current filter accepts, however handlers and on_start() set the filter |
| `ActorControl.NextKeepsControl` | source/system.cpp:488-617 | Every step of every thread keeps the invariant about the execution token, the mailbox word, the stop phase and the hooks |
| `ActorControl.StopKeepsControl` | source/system.cpp:784-830 | Every step of stop_actor keeps that invariant: claim, record, state change, request, unblock, schedule |
| `ActorControl.WaitKeepsControl` | source/system.cpp:227-289 | Every step of wait_for_shutdown, including the stops it completes itself, keeps that invariant |
| `ActorLedger.ServiceBalanced` | source/system.cpp:856-947 | A step of service_stop moves messages between queues, the closing drain and the ledger and neither loses, duplicates nor admits one |
| `ActorLedger.ProcessBalanced` | source/selective_stash.cpp:56-83 | A step of process_next_message, plain or selective, and of dispatch does the same |
| `ActorLedger.ProduceKeepsLedger` | source/actor.cpp:154-232 | Enqueueing adds a message to the mailbox or to the dead letters, exactly once, also when the push finds the mailbox closed |
| `ActorLedger.NextKeepsInv` | source/actor.cpp:439-450 | Every step keeps the whole invariant, message ledger included |
| `ActorLimits.EarlyStopStrands` | source/system.cpp:509-520 | After a stop_actor() that ends while on_start() is in progress, activation blocks the mailbox without looking at the stop phase and nobody is left to notice the stop |
| `ActorLimits.StrandedIffStoppedEarly` | source/system.cpp:509-520 | No reachable state strands the actor if and only if stops are requested only after activation |
| `ActorLimits.PausedDrainAbandoned` | source/system.cpp:997-1010 | With a turn limit there is a run in which wait_for_shutdown() finishes although a requested drain was abandoned: the mailbox is still open with a message in it and on_shutdown never ran |
| `ActorLimits.PendingStopCompleted` | source/system.cpp:975-979 | A stop left pending that is a discard, or any stop when turns are unlimited, is completed by wait_for_shutdown() |
| `ActorLimits.PendingStopsCompletedIffUnlimited` | source/system.cpp:856-868 | wait_for_shutdown() completes every requested stop if and only if max_messages_per_turn is 0 |
| `Parking.NoLostWakeup` | source/system.cpp:554-568 | Whenever the worker waits on its condition variable with work queued or shutdown requested, some thread that pushed or requested shutdown has yet to complete its notify; the timeout is never needed |
| `Parking.WakeupProgresses` | source/system.cpp:522-532 | Such a thread is never stuck: one can step at once, and its step wakes the worker or brings its notify nearer |
| `Parking.WokenWorkerWorks` | source/system.cpp:554-568 | A worker that was woken and has work or a shutdown to see returns to its loop by its own steps, no longer marked as sleeping, its mutex released and no work lost |
| `Parking.IdleWorkerSleeps` | source/system.cpp:554-568 | A worker that parks with no work and no shutdown to see, left alone, waits, marked as sleeping and with its mutex released |
| `Parking.MutexExcludes` | source/system.cpp:216-225 | At most one thread is inside the worker's mutex, and not together with the worker |
| `Parking.NextKeepsInv` | source/system.cpp:619-642 | Every step of the worker, of pushing threads and of shutdown() keeps the handshake invariant |
| `MailboxOrder.CountersCover` | source/mailbox.cpp:54-61 | Under any interleaving of pushes, pops and close each counter is at least the number of queued messages of its kind, never negative, and exact when no operation is in flight |
| `MailboxOrder.DeliveredInPushOrder` | source/mailbox.cpp:93-131 | Messages of one kind are delivered in the order their compare-and-swap succeeded, and until close the rest of that order is exactly what is cached and stacked |
| `MailboxOrder.CallsOvertakeMessages` | source/mailbox.cpp:133-152 | A pop takes an ordinary message only when every call whose push took effect before that pop began has been delivered |
| `MailboxOrder.SenderOrderKept` | source/actor.cpp:393-404 | Two messages of one kind from one sender are delivered in the order it sent them |
| `MailboxOrder.PushTakesEffect` | source/mailbox.cpp:63-79 | An exchange on a mailbox that is not closed queues the message, opens the mailbox and leaves the other kind alone; only a closed one refuses |
| `MailboxOrder.EmptyPopSawNothing` | source/mailbox.cpp:139-143 | A pop comes back without a message only in a step at which no message of either kind was queued |
| `MailboxOrder.SoloPop` | source/mailbox.cpp:133-152 | From any reachable state a pop that runs alone delivers the oldest queued call, else the oldest other message, and nothing only if nothing is queued |
| `MailboxOrder.NextKeepsInv` | source/mailbox.cpp:54-190 | Every atomic step of push, pop, try_block, try_unblock and close keeps counters, order and call priority |
| `LinkedStack.PushGoesOnTop` | source/mailbox.cpp:65-75 | Link by link and whatever other threads did between the load and the exchange, ABA included: a successful exchange puts the node on top of the stack as it is then, opens a blocked mailbox and never replaces the closed tag |
| `LinkedStack.TakeGetsTheStack` | source/mailbox.cpp:81-91 | The owner's exchange gets exactly what is stacked, linked newest first, and leaves the stack empty |
| `LinkedStack.TakenInPushOrder` | source/ready_queue.cpp:14-48 | Nodes are taken in the order their exchanges succeeded and the links from the top spell out the rest of that order: none lost, none twice, no cycle |
| `LinkedStack.RefusedOnlyIfClosed` | source/mailbox.cpp:77-78 | A push gives its node back only if the mailbox is closed |
| `LinkedStack.SoloPush` | source/mailbox.cpp:63-79 | Whatever it has loaded so far, a push that from now on runs alone finishes with its node on top of what was there, or, on a closed mailbox, with the node the caller's again |
| `LinkedStack.NextKeepsInv` | source/ready_queue.cpp:14-25 | Every access of any number of pushes, of the owner's exchange and of its relinking keeps the links and who may write them |
| `MailboxRefinement.LinkedStepRefines` | source/mailbox.cpp:54-91 | Every step on the linked stack is, on the sequence of messages it represents, a push, a fetch, a change of tag, or invisible |
| `MailboxRefinement.ExchangeIsTryPush` | source/mailbox.cpp:67-72 | A successful exchange is the push step of MailboxOrder |
| `Mailbox.Mailbox.constructor` | source/mailbox.cpp:13-15 | A new mailbox is open and empty |
| `Mailbox.Mailbox.Push` | source/mailbox.cpp:54-79 | On real linked nodes, however often the exchange fails for no reason or because other threads pushed in between: refused exactly if closed, and then mailbox and node are as they were; otherwise the mailbox is open and each queue is what it was, then the rivals' messages of its kind, then this one; it answers unblocked exactly if it opened a blocked mailbox |
| `Mailbox.Mailbox.TakeHead` | source/mailbox.cpp:81-91 | Leaves the given tag and returns the whole stack, linked as it was |
| `Mailbox.Mailbox.FetchMore` | source/mailbox.cpp:93-131 | Moves the stack into the two caches without changing the two queues the mailbox represents; true exactly if there was something to move |
| `Mailbox.Reverse` | source/mailbox.cpp:99-118 | The loop reverses the newest-first list in place and splits it: each result list has the nodes of its kind in push order, with its last node |
| `Mailbox.ReversedArrives` | source/mailbox.cpp:99-118 | The two accumulators of that loop are the messages of each kind in push order |
| `Mailbox.Mailbox.Pop` | source/mailbox.cpp:133-152 | Nothing only if both queues are empty; otherwise the first call or, with no call queued, the first other message, removed from the front of its queue and unlinked, nothing else changed |
| `Mailbox.Mailbox.HasMessages` | source/actor.cpp:406-410 | True exactly if a message is queued |
| `Mailbox.Mailbox.TryBlock` | source/mailbox.cpp:154-161 | Succeeds if and only if the mailbox is open and holds no message, and then it is blocked; otherwise its status stays; the queues stay |
| `Mailbox.Mailbox.TryUnblock` | source/mailbox.cpp:163-167 | Succeeds if and only if the mailbox was blocked, and then it is open; otherwise its status stays; the queues stay |
| `Mailbox.Mailbox.Close` | source/mailbox.cpp:169-190 | Closes for good and drops cached calls, cached messages, then the stack newest first: every queued message exactly once; both counters end at zero |
| `Mailbox.PushedAllQueues` | source/mailbox.cpp:54-79 | Pushed messages go behind those queued of their kind, in push order |
| `MailboxUse.Drive` | include/cas/detail/mailbox.h:90-129 | For any sequence of pushes, pops, try_blocks, try_unblocks and closes on a real mailbox, judged by their answers alone: of each kind what was popped followed by what is queued is what was accepted, in order; close drops the rest once; and every successful try_block is followed by exactly one wake-up, a push that answers unblocked or a try_unblock that succeeds, before the next one can succeed |
| `IntrusiveList.LinkedDistinct` | source/mailbox.cpp:99-131 | A linked list that ends meets no node twice: no cycle, no duplicate |
| `IntrusiveList.Fifo.Append` | source/mailbox.cpp:119-129 | Hanging a list behind a head/tail cache gives the concatenation, properly linked and ended |
| `IntrusiveList.Fifo.TakeFirst` | source/mailbox.cpp:144-150 | Unlinks the oldest node and only that |
| `ReadyQueue.ReadyQueue.Push` | source/ready_queue.cpp:14-25 | The actor goes behind all that wait and all that other threads pushed between its attempts, on real linked nodes |
| `ReadyQueue.ReadyQueue.FetchMore` | source/ready_queue.cpp:27-48 | Moves the stack into the cache, reversed in place, without changing the order of waiting |
| `ReadyQueue.Reverse` | source/ready_queue.cpp:31-40 | The in-place reversal loop |
| `ReadyQueue.ReadyQueue.Pop` | source/ready_queue.cpp:50-59 | Returns the actor that has waited longest, or nothing exactly when none waits |
| `ReadyQueue.ReadyQueue.MaybeNonempty` | source/ready_queue.cpp:61-63 | True exactly if some actor waits |
| `WorkerTurns.OrderOnRun` | source/ready_queue.cpp:14-59 | Turns begin in the order the actors were queued, over every stretch of every run |
| `WorkerTurns.BoundedWaiting` | source/system.cpp:576-602 | With a turn budget B the actor at position k gets exactly the turn after k others; before it at most the rest of the current turn plus k*B messages are handled |
| `WorkerTurns.WaitBoundedIffBudget` | source/system.cpp:576-602 | Some number of messages bounds every such wait if and only if the budget is not 0 (0 is no limit) |
| `DequeueCounters.ClaimsNeverExceedTail` | include/external/concurrentqueue.h:1954-2052 | For any number of concurrent dequeue and dequeue_bulk callers the claims granted so far, advanced or not, never exceed the tail |
| `DequeueCounters.IndicesGivenOnce` | include/external/concurrentqueue.h:2003-2003 | The ranges that the fetch-and-add on the head index returned to consumers are pairwise disjoint, cover exactly the indices below the head and lie below the tail |
| `DequeueCounters.GrantsStay` | include/external/concurrentqueue.h:2267-2269 | Over any stretch of a run ranges are only added, and an element once moved out stays moved out by the same consumer |
| `DequeueCounters.TakesWhatIsThere` | include/external/concurrentqueue.h:2280-2327 | An index that a consumer is about to move out holds an enqueued, unmoved element, and no other consumer is about to move it out |
| `DequeueCounters.EachElementTakenOnce` | include/external/concurrentqueue.h:2247-2338 | With no consumer in flight every element below the head was moved out by the consumer that was given its index, and every element above it is still there |
| `DequeueCounters.QuiescentCounters` | include/external/concurrentqueue.h:1957-1959 | With no consumer in flight, optimistic count minus overcommit equals the head index |
| `DequeueCounters.SoloDequeue` | include/external/concurrentqueue.h:2247-2269 | From any reachable state with no consumer in flight, a consumer running alone is given exactly what is there, up to its maximum, as one range from the head |
| `DequeueCounters.NextKeepsInv` | include/external/concurrentqueue.h:2247-2338 | Every access of a dequeue, a bulk dequeue or an enqueue keeps the counter invariant |
| `FreeList.LinkFixedWhileHeld` | include/external/concurrentqueue.h:1479-1506 | While a thread has a counted reference to a node no step of any thread changes the node's next link |
| `FreeList.SwingInstallsSuccessor` | include/external/concurrentqueue.h:1489-1498 | When try_get's head exchange succeeds it installs the node's true successor: the list loses its front and nothing else, and the node is not flagged |
| `FreeList.GetsMatchAdds` | include/external/concurrentqueue.h:1459-1511 | Each add of a node is matched by at most one try_get that returns it, and never by two threads at once |
| `FreeList.SoloGet` | include/external/concurrentqueue.h:1473-1511 | From any reachable state with no operation in flight and a node on the list, a try_get that runs alone returns the front node |
| `FreeList.SoloAdd` | include/external/concurrentqueue.h:1459-1541 | From any reachable state with no operation in flight an add that runs alone puts its node at the head of the list |
| `FreeList.LeavesEmptyHandedOnlyIfEmpty` | include/external/concurrentqueue.h:1473-1511 | Under any interleaving a try_get comes back without a node only if at some step after it began it saw the head of the list empty |
| `FreeList.QuiescentListComplete` | include/external/concurrentqueue.h:1516-1541 | With no operation in flight every node added and not taken is on the list exactly once, linked from the head, with one reference and no flag |
| `FreeList.NeverStuck` | include/external/concurrentqueue.h:1473-1541 | No thread in add or try_get ever stands before a step it cannot take |
| `FreeList.NextKeepsInv` | include/external/concurrentqueue.h:1459-1541 | Every access of add and try_get keeps reference counts, responsibilities, links and the list |
| `MessagePool.SizeClassFits` | source/message_pool.cpp:75-82 | The index is the smallest class that fits, and there is none exactly for sizes above 1024 |
| `MessagePool.BlocksConserved` | source/message_pool.cpp:171-260 | Over any interleaving every block made is in exactly one place: one user, its own class's list, one thread's hands, or the heap |
| `MessagePool.CountCoversList` | source/message_pool.cpp:85-116 | count equals the listed blocks plus the reservations in flight, is never below the listed blocks and is exact when all threads are idle |
| `MessagePool.CapHolds` | source/message_pool.cpp:85-97 | A nonzero cap that is not changed is never exceeded by the shared list, however many threads release at once |
| `MessagePool.BlockReturnsHome` | include/cas/message_base.h:25-51 | The size in a block's header always selects the class the block was made for, and the block is large enough for it |
| `MessagePool.CacheFits` | source/message_pool.cpp:211-240 | A thread's cache never outgrows its array |
| `MessagePool.ActConserves` | source/message_pool.cpp:85-116 | Each access of allocate, deallocate, prewarm, thread exit and release_to_shared gives out, lists, holds and frees exactly the blocks it found, was given or made |
| `MessagePool.ActCap` | source/message_pool.cpp:90-97 | A reservation grants at most what count leaves below the cap |
| `MessagePool.FreeThenAlloc` | source/message_pool.cpp:207-240 | A block freed into a cache with room is the one the thread's next allocation returns, with no access to the shared list or count and nothing made or returned to the heap |
| `MessagePool.MadeOnlyWhenDry` | source/message_pool.cpp:185-208 | An allocation makes a block only with an empty cache and after a dequeue that got nothing |
| `MessagePool.ReservesAllThatFits` | source/message_pool.cpp:88-100 | A release may list as many of its blocks as the cap leaves room for, and all of them without a cap |
| `MessagePool.FreedOnlyAboveCap` | source/message_pool.cpp:88-116 | Blocks are returned to the heap only when count and the blocks released exceed the cap, or after a failed enqueue |
| `MessagePool.NothingFreedWithoutCap` | source/message_pool.cpp:85-116 | Over every run without a cap in which no enqueue fails, no block is ever returned to the heap |
| `SelectiveStash.ProcessTakesNext` | source/selective_stash.cpp:56-83 | process_next takes a queued framework message at once, holding what came before it; otherwise it takes the oldest message of held ++ mailbox that the filter accepts, or none if there is none |
| `SelectiveStash.NextIsUnique` | source/selective_stash.cpp:56-83 | Only one outcome fits that description |
| `SelectiveStash.Stash.ProcessNext` | source/selective_stash.cpp:56-83 | The two loops compute that outcome and keep the cached counts exact; framework messages are never held |
| `SelectiveStash.Stash.TakeMail` | source/selective_stash.cpp:59-67 | The mailbox loop stops at a framework message or an empty mailbox with the same outcome still ahead |
| `SelectiveStash.Stash.Change` | source/selective_stash.cpp:15-42 | After accept(t) exactly t and the types listed before are accepted; after reject(t) what was accepted minus t, unless all is; accept_all and reject_all accept every type and none; the held messages stay and are recounted |
| `SelectiveStash.ChangedAccepts` | source/selective_stash.cpp:15-42 | For every filter change and every message, whether it is accepted afterwards; with all accepted no type is listed |
| `SelectiveStash.Stash.Recount` | source/selective_stash.cpp:48-54 | The cached count is the number of held messages accepted now |
| `SelectiveStash.Stash.HasWork` | source/selective_stash.cpp:85-88 | True exactly if the mailbox is not empty or some held message is accepted |
| `SelectiveStash.Stash.DropHeld` | source/selective_stash.cpp:94-101 | Every held message is reported once, in order, and none stays |
| `StatefulDrain.TypeOrderKept` | source/selective_stash.cpp:56-83 | Over every run of arrivals, filter changes and process_next calls, messages of one type are handled in arrival order and the others are held or queued in that order |
| `StatefulDrain.ProcessProgresses` | source/selective_stash.cpp:56-88 | A call with work to do lowers (mailbox + held, mailbox); one that handles nothing leaves nothing to do; one without work changes nothing |
| `StatefulDrain.ProcessConserves` | source/selective_stash.cpp:56-83 | A call neither loses nor duplicates a message |
| `StatefulDrain.Drain` | source/system.cpp:975-979 | The drain of a stateful actor ends without the clock, after at most one round more than there are messages, although handlers change the filter; every message is handled or discarded, once; all discarded messages but control traffic are reported dead; without a timeout those discarded are ordinary messages not accepted at the end |
| `StatefulDrain.DiscardMail` | source/actor.cpp:439-450 | Every queued message is popped and, unless it is a pending system_shutdown, reported dead, once, in order |
| `StatefulDrain.DiscardPending` | source/stateful_actor.cpp:26-29 | Discards the mailbox, then every held message |
| `PlainDrain.Drain` | source/system.cpp:975-979 | On the linked mailbox: the drain of a plain actor ends, handles messages in delivery order, discards the rest only after a timeout, and closes the mailbox empty |
| `PlainDrain.HandleMessages` | source/system.cpp:882-887 | The loop: while has_messages and time, pop one; what was handled followed by what is left is what was there |
| `PlainDrain.Discard` | source/actor.cpp:439-450 | Pops until nothing is left and reports every message but a pending system_shutdown, once, in order |
| `PlainDrain.DeadLettersAre` | source/actor.cpp:439-450 | Each discarded message is reported as often as it is discarded, a system_shutdown never |
| `TimerManager.Manager.Schedule` | source/timer_manager.cpp:61-96 | A fresh id becomes active with its fire time and interval, entered in the queue and both maps |
| `TimerManager.Manager.Cancel` | source/timer_manager.cpp:98-120 | The timer is active no more; unknown, finished and cancelled ids are safe; its queue entry stays |
| `TimerManager.Manager.ActiveCount` | source/timer_manager.cpp:122-125 | The number of active timers |
| `TimerManager.Manager.RetainActive` | source/timer_manager.cpp:127-130 | Keeps exactly the active ids |
| `TimerManager.Manager.Clear` | source/timer_manager.cpp:44-53 | No timer is left |
| `TimerManager.Manager.Pass` | source/timer_manager.cpp:132-217 | One pass of the thread's loop: what it extracts is active, due, and none active is due before it; a one-shot leaves both maps, a periodic timer moves on by its interval; otherwise the active timers are unchanged and a cancelled head was dropped or nothing is due; the maps and the queue agree again |
| `TimerRuns.ExtractedOnSchedule` | source/timer_manager.cpp:195-206 | The extraction of a timer after n earlier ones is for exactly first + n*interval, and a one-shot is extracted at most once |
| `TimerRuns.ActiveUntilDone` | source/timer_manager.cpp:132-217 | Over every run a timer is active exactly until it is cancelled, the tables are cleared or, a one-shot, it was extracted; a periodic one never runs out, and its next extraction is for the next of its times |
| `TimerRuns.NothingAfterCancel` | source/timer_manager.cpp:98-120 | Once cancel() has returned the timer is never extracted again |
| `TimerRuns.Perform` | source/timer_manager.cpp:61-217 | Each operation on a Manager is one step of a run, or none for a pass that extracts nothing |
| `TimerRuns.Drive` | source/timer_manager.cpp:132-217 | Any sequence of operations on a Manager is a run; what its passes extracted is on schedule timer by timer and nothing is extracted after its cancel |
| `ActorTimers.Actor.TrackTimer` | source/actor.cpp:468-478 | Adds the timer, first pruning finished ones when the set has reached its limit, and sets the next limit |
| `ActorTimers.TrackedIs` | source/actor.cpp:468-478 | The new timer is remembered and no active one is forgotten; finished ones are forgotten only when the set has reached its limit, and then the next prune is at least as many insertions away as timers are left |
| `ActorTimers.Actor.CancelTimer` | source/actor.cpp:480-490 | Removes the timer from the set and from the manager; the invalid id is a no-op |
| `ActorTimers.Actor.CancelAll` | source/system.cpp:720-729 | Exactly the tracked timers are cancelled and the set is empty |
| `ActorTimers.TrackingCompleteAndBounded` | source/actor.cpp:468-478 | Over every run all live timers of the actor are in its set or about to be, despite pruning, and the set never exceeds max(64, 2 * peak live timers) |
| `ActorTimers.CancelAllLeavesNone` | source/system.cpp:720-729 | After cancel_actor_timers none of the actor's timers is active |
| `RelayOutbound.Relay.SendOrHold` | source/zeromq_relay_actor.cpp:198-236 | An envelope is held back exactly if others wait for its peer or the transport refuses it; then policy drop discards it, fail reports it, and queue holds it, or reports it exactly when a nonzero limit is reached; otherwise it is delivered if the transport sent it and reported if the transport failed; the four logs, the queues and the request table change by exactly that |
| `RelayOutbound.Relay.FlushFront` | source/zeromq_relay_actor.cpp:247-269 | A timed-out or failed envelope is reported, a sent one is logged and tracked, a refused one stays in front |
| `RelayOutbound.Relay.FlushPeer` | source/zeromq_relay_actor.cpp:245-271 | The inner loop stops only at a refusal; what stays is the end of the old queue, its front not timed out; an emptied queue is erased; what was sent or reported stays so |
| `RelayOutbound.Relay.Flush` | source/zeromq_relay_actor.cpp:238-273 | All peers are tried in any order; true exactly if something is still held; nothing is held if the transport refuses nothing; nothing is lost or reordered |
| `RelayOutbound.Relay.FailAll` | source/zeromq_relay_actor.cpp:284-292 | Every held envelope is reported once and none is kept |
| `RelayOutbound.Relay.TrackRequest` | source/zeromq_relay_actor.cpp:275-282 | A request with a correlation id and a sender is entered under that id, any other is not, and all other entries stay |
| `RelayOutbound.Drive` | source/zeromq_relay_actor.cpp:198-292 | For any sequence of sends, flushes, closings and policy changes and any transport answers: each envelope passed in is exactly one of sent, reported, dropped and held; the transport accepted each peer's envelopes in send order and those held come after them; m_queued_sends is the sum of the queue lengths and m_dropped_sends the number dropped; a reply is awaited only for a request that went out; only an envelope passed in under policy drop is ever dropped, and one the transport refused is dropped under drop and reported under fail |
| `RelayOutbound.TotalUpdate` | source/zeromq_relay_actor.cpp:232-234 | Changing one queue changes the sum of queue lengths by the difference, so m_queued_sends stays that sum |

## Left out

- The branch of `stop_actor` for a system without running workers, waiting for the stop to complete,
  watchers, names and the registry: they touch none of the state modelled here.
- Fast actors and inline actors: they poll or run on the caller and never use the ready queue.
- "Every message is handled or reported" for whole-system shutdown: the code only logs what is left
  after the drain timeout (source/system.cpp:198-214).
- The rest of the vendored queue (blocks, producer lists, implicit producers): the pool sees it as a
  bag.
- Handler tables, call promises, exceptions from handlers, dead-letter callbacks, metrics and
  thresholds: a call is a message kind, a dead letter an entry in a ledger.
- Over-aligned and oversized messages in `MessagePool`: they bypass the pool.
- The transport, routes and incoming messages of the relay; expiry of tracked requests.
- Parking.WakeupProgresses: a step towards the notify is always possible; that the thread is
  scheduled to take it is fairness of the operating system and not modelled.
- WorkerTurns.BoundedWaiting: counts turns and messages, not time; a handler may take any time.
- Mailbox.Mailbox.Push: other threads' pushes come between its attempts as a whole; every interleaving
  of the single accesses, the owner's included, is the subject of `LinkedStack`.
- Mailbox.Mailbox.Close: deleting the dropped nodes is not modelled.
- ReadyQueue.ReadyQueue.Push: the actor's strong reference to itself while queued is not modelled;
  `clear()` is left out.
- StatefulDrain.Drain: no message arrives during the drain, because a stopping actor accepts none and
  no push is in flight.
- TimerManager.Manager.Schedule: taking the id and entering the timer are one step; the code takes the
  id before it locks.
- TimerManager.Manager.Pass: the queue is a bag from which an earliest entry is taken; the heap inside
  the standard library's priority queue is not modelled. The second look at `cancelled` and at the
  callback map after the pop is left out, because the invariant shows that it never finds anything.
