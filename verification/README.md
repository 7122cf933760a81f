# The concurrency kernel of libdex, in Dafny

libdex is a library of futures and structured concurrency for GLib.  This project models the
lock-protected state machines at its core and proves what every run of them keeps.

Concurrency is modelled by steps.  A step is one atomic operation or one region under a mutex, and
a run is any legal sequence of steps, by any number of threads.  Fields that the C code updates in
place are fields of a Dafny class, one method for each region, and each method is proved against a
function on the value of the fields; the transition systems take their steps with those functions,
and the theorems are about all their runs.  What those functions are for is stated without them:
invariants, the order and number of effects, and what a run's actions alone say of its final state
(for instance `FutureTheorems.ResultIsGiven`, `LimiterCounts.CountsWhatHappened` and
`FiberTheorems.CancelledIffDiscarded`).  Values, errors, items, futures and threads are known by
numbers.

The parts, each in the order model, invariant, theorems:

- **Weak and strong references** (`RefLedger`, `WeakRefs`, `WeakRefSafety`, `WeakRefTheorems`,
  `WeakRefExamples`): `dex_unref()` against `dex_weak_ref_get()`, `set()` and `clear()`, for N
  threads with program counters.  The watermark is kept modulo 2^32.
- **Semaphore and limiter** (`Semaphores`, `Sums`, `Limiters`, `LimiterSafety`, `LimiterTheorems`,
  `LimiterCounts`, `LimiterDrain`, `LimiterStranded`, `LimiterLostDrain`): permits, the drain promise,
  and acquires that are overtaken by a close.
- **Channel** (`Channels`, `ChannelTheorems`): a bounded channel is one FIFO with back-pressure.
- **Futures** (`Futures`, `FutureGraphs`, `FutureTheorems`): complete-once, chaining, propagation
  and discard over a graph of futures.
- **Blocks** (`Blocks`): `then`, `catch`, `finally` and their loops refine a pure evaluation.
- **Future sets** (`FutureSets`, `FutureSetRaces`): `all`, `any`, `all_race` and `first`.
- **Task groups** (`TaskGroups`): counters, close and the first error.
- **Fibers** (`Fibers`, `FiberSafety`, `FiberTheorems`, `FiberExamples`): no lost wakeup, and fair
  dispatch.  Completing a future and notifying each waiter are separate steps.

`Common` holds shared vocabulary.  `dafny verify dfyconfig.toml` checks everything.

## What does not hold

Seven properties that the code or its documentation suggest are false of the code.  The code is kept
as it is; each has a concrete run that refutes it and the exact condition under which it holds.

- *Finalize runs at most once.*  An upgrade raises the watermark (src/dex-object.c:310) before it
  adds its reference (src/dex-object.c:313).  An unref that reads the watermark and reaches zero
  between the two holds the same watermark as the later unref of the upgrader, and both finalize
  (`WeakRefExamples.FinalizedTwice`).  Finalize runs exactly once for each thread that held a current
  claim when the first thread passed both tests (`WeakRefTheorems.OncePerClaimant`), hence once if
  and only if there was one such thread, and at most once in every run without that overlap
  (`WeakRefTheorems.AtMostOnce`).
- *The last unref finalizes.*  The watermark is read before the decrement (src/dex-object.c:107), so
  the last unref may bail out and the object leaks (`WeakRefExamples.NeverFinalized`).  It is
  finalized if and only if the latest decrement to zero had read a current watermark
  (`WeakRefTheorems.FinalizedExactlyIfFresh`).
- *A drain resolves when the limiter is closed.*  The promise exists before the limiter is closed
  (src/dex-limiter.c:615-624), so a release in between may resolve it while further acquires are
  still accepted (`LimiterTheorems.DrainMayResolveWhileOpen`, with every release matching an
  acquire).  The resolution is final if and only if the limiter was closed at that moment
  (`LimiterTheorems.DrainFinalIffClosed`).  With acquire, close and close_after_drain uninterrupted
  the promise is kept (`LimiterDrain.DrainIsSound`).
- *A drain resolves in the end.*  An acquire that left the mutex of the limiter before a close, and
  reaches the semaphore after it (src/dex-limiter.c:555-560 against src/dex-limiter.c:793-802), may
  wait for ever, and the drain with it (`LimiterStranded.DrainMayBeLost`); the drain is lost even
  before that acquire waits (`LimiterLostDrain.LostWithNobodyWaiting`).  A drain can still resolve if
  and only if the semaphore is yet to be closed, or the permits in it and the posts in flight suffice
  for all acquires that wait or are on their way to wait (`LimiterLostDrain.DrainResolvesIff`).  Of
  one waiting acquire, `LimiterStranded.LeavesIffNotStranded` says when it can leave.
- *any() rejects only if all children reject; all_race() resolves only if all resolve.*  A child is
  counted under the mutex, but its verdict lands after the unlock (src/dex-future-set.c:116-151), so
  the verdict of the last child may overtake an earlier one (`FutureSetRaces.AnyMayReject`,
  `FutureSetRaces.AllRaceMayResolve`).  The promise is kept if and only if that does not happen
  (`FutureSetRaces.PromiseUnlessOvertaken`).
- *first() takes the first result.*  For the same reason it takes the first that lands
  (`FutureSetRaces.FirstMayMiss`).  That is the first result if the child counted first lands first,
  and, unless children have the same result, only then (`FutureSetRaces.FirstMetIffFirstLands`).
  Completions that do not overlap give the documented result for all four combinators
  (`FutureSets.Gather` with the four `IsMet` lemmas).
- *dex_fiber_propagate() finds its fiber neither runnable nor exited.*  A fiber that is cancelled
  leaves an await whose future was completed, but whose notice is still on its way (src/dex-fiber.c:649
  finds the future no longer pending).  If it awaits anew first, the notice fails the assertion at
  src/dex-fiber.c:182 (`FiberExamples.AssertionMayFail`).  An assertion fails if and only if a notice
  finds its fiber in a later await, or exited (`FiberTheorems.AssertionsFailIffLate`); none ever
  does if completing and notifying are not interrupted (`FiberTheorems.AssertionsHoldIfUninterrupted`).

## Model

| member | source | states |
|---|---|---|
| WeakRefSafety.ActSafe | src/dex-object.c:91-170 | every step of every thread keeps the invariant: reference ownership, mutual exclusion of the mutexes, the weak list against the weak pointers |
| WeakRefSafety.QuietAtTest | src/dex-object.c:128-144 | a thread that reads a count of zero with all weak mutexes held sees no upgrade under way |
| WeakRefSafety.NoUpgradeOnceCleared | src/dex-object.c:289-331 | after the weak list was stolen no thread finds a weak pointer to upgrade |
| WeakRefTheorems.RunSafe | src/dex-object.c:91-170 | the invariant holds along every run of any number of threads |
| WeakRefTheorems.FinalizedMeansUnowned | src/dex-object.c:137-169 | finalize is reached only when the count is zero, nobody owns a reference and no upgrade holds one |
| WeakRefTheorems.UpgradesFailOnceCleared | src/dex-object.c:289-331 | however a run goes on after the weak list was cleared, the count stays zero and every weak upgrade returns NULL |
| WeakRefTheorems.AtMostOnce | src/dex-object.c:91-170 | finalize runs at most once unless a decrement to zero overlaps an upgrade between its two atomic operations |
| WeakRefTheorems.OncePerClaimant | src/dex-object.c:137-169 | the number of finalize calls is exactly the number of current claims when the first thread passed both tests, so at most one if and only if there was one claim |
| WeakRefTheorems.FinalizedExactlyIfFresh | src/dex-object.c:102-144 | an object whose count is zero at rest was finalized if and only if the latest decrement to zero used a current watermark |
| WeakRefTheorems.NoDeadlock | src/dex-object.c:128-130 | in every reachable state with a thread inside a call, some thread can take its next step |
| WeakRefTheorems.ListGuardsHold | src/dex-object.c:194-248 | whoever links or unlinks a weak reference owns a reference, and what is linked points to the object and is not on the list, in every run |
| WeakRefTheorems.ClearedWeakIsDetached | src/dex-object.c:375-404 | at the end of dex_weak_ref_clear() the weak reference is off the list and points nowhere |
| WeakRefTheorems.ReferencesAddUp | src/dex-object.c:91-170 | in every run a thread owns what it copied, was handed and obtained from weak references, less what it dropped and handed over; the count is what all own and what nobody owns |
| WeakRefTheorems.BalancedBetweenCalls | src/dex-object.c:289-455 | in every run a thread in no call owns exactly what its calls promise: unref gives one up, a get that found the pointer adds one, set and clear leak none |
| WeakRefTheorems.GetSucceedsIffFound | src/dex-object.c:289-331 | whatever others do meanwhile, a get that finds the pointer set when it looks returns with one more reference owned, and one that finds NULL with none |
| WeakRefExamples.FinalizedTwice | src/dex-object.c:303-315 | a legal run in which finalize runs twice |
| WeakRefExamples.NeverFinalized | src/dex-object.c:107-143 | a legal run in which the count reaches zero and nobody finalizes |
| RefLedger.ApplyInv | src/dex-object.c:91-170 | the two counters, the owners and the claims stay consistent under every operation on them |
| WeakRefTheorems.NoFinalizeAfterWrap | src/dex-object.c:137-169 | in every run, once the watermark has passed G_MAXUINT32 nobody has passed both tests or finalized, so a stale watermark that matches again does no harm |
| WeakRefTheorems.WrappedMeansImmortal | src/dex-object.c:303-315 | once the watermark has wrapped and no upgrade is half done, there is a reference that nobody owns and the count is positive |
| WeakRefTheorems.ImmortalForGood | src/dex-object.c:303-315 | from then on the count is positive in every continuation |
| RefLedger.FinalizesAtMostOnce | src/dex-object.c:137-169 | without overlap one finalizer at most, with the watermark modulo 2^32 |
| Semaphores.Semaphore.PostMany | src/dex-semaphore.c:148-180 | the loop grants the oldest waiters, as many as the counter allows, and leaves the rest in order |
| Semaphores.Semaphore.Wait | src/dex-semaphore.c:189-231 | a permit now if the counter is positive, else the last place in the queue |
| Semaphores.Semaphore.Close | src/dex-semaphore.c:233-256 | all waiters are rejected in order; nothing records the closing |
| Semaphores.PostManyIsPosts | src/dex-semaphore.c:142-180 | post_many(n) reaches the same state and grants as n single posts |
| Semaphores.RunIsSound | src/dex-semaphore.c:142-256 | in every run: counter never negative, positive only without waiters, posted equals granted plus counter, tickets completed in the order drawn |
| Semaphores.NothingIsMissed | src/dex-semaphore.c:148-231 | the run that these sums are about has a ticket for every wait and counts every post |
| Semaphores.CloseRejectsAll | src/dex-semaphore.c:233-256 | after a close every ticket drawn has its outcome, those that waited a rejection, and the counter is untouched |
| Limiters.Limiter.MarkAcquired | src/dex-limiter.c:175-184 | a grant becomes a held permit if and only if the acquire was not discarded and the limiter is open, is to be given back if and only if it was discarded and the limiter is open, and is dropped after close |
| Limiters.Limiter.Release | src/dex-limiter.c:117-136 | a surplus release changes nothing; a release posts only while open |
| Limiters.Limiter.MaybeResolveDrain | src/dex-limiter.c:138-157 | the drain promise is taken exactly when nothing is pending and nothing held |
| LimiterTheorems.ClosesSemaphoreOnce | src/dex-limiter.c:786-803 | however many calls close the limiter, exactly one closes the semaphore, once |
| LimiterTheorems.OnePromisePerDrain | src/dex-limiter.c:606-629 | no more drain promises are made and resolved than drains were asked for, in every run |
| LimiterSafety.ApplyInv | src/dex-limiter.c:117-259 | every lock region keeps permits, pending count, waiters and watchers of the drain promise consistent |
| LimiterTheorems.PermitsConserved | src/dex-limiter.c:117-259 | counter + grants unhandled + acquired + posts in flight is max_concurrency while open and never more after close, in every interleaving |
| LimiterCounts.CountsWhatHappened | src/dex-limiter.c:117-259 | in every interleaving `acquired` is the number of grants marked while open for acquires not discarded when their callback looked, less the releases that found one held; the acquires accepted are those begun before a close |
| LimiterCounts.MarkHoldsOrGivesBack | src/dex-limiter.c:159-232 | in every run a mark adds one held permit, or, for an acquire discarded before its callback looked, sends the callback to post it back; after a close neither |
| LimiterCounts.ClosedIffAsked | src/dex-limiter.c:786-803 | the limiter is closed exactly from the first step of a close on |
| LimiterCounts.DrainIsPromised | src/dex-limiter.c:606-629 | a drain asked for is promised until it is resolved |
| LimiterTheorems.DrainNotForgotten | src/dex-limiter.c:138-157 | an unresolved drain that nobody is about to look at has something pending or held |
| LimiterTheorems.FinishedStays | src/dex-limiter.c:537-567 | closed with nothing pending and nothing held stays so in every continuation |
| LimiterTheorems.DrainFinalIffClosed | src/dex-limiter.c:606-629 | a resolved drain is final if and only if the limiter was closed when it resolved |
| LimiterTheorems.DrainMayResolveWhileOpen | src/dex-limiter.c:606-629 | for every max_concurrency a run, with an acquire and its release, in which the drain resolves while the limiter is open |
| LimiterStranded.StrandedForGood | src/dex-limiter.c:555-567 | an acquire behind a closed semaphore with no more posts in flight than acquires ahead waits in every continuation, and no drain resolves |
| LimiterStranded.LeavesIffNotStranded | src/dex-semaphore.c:233-256 | in every reachable state an acquire that waits can leave the semaphore if and only if it is not so stranded |
| LimiterStranded.DrainMayBeLost | src/dex-limiter.c:606-629 | a run after which the drain stays unresolved in every continuation |
| LimiterLostDrain.DrainResolvesIff | src/dex-limiter.c:537-629 | in every run a drain asked for can still resolve if and only if the semaphore is yet to be closed, or its permits and the posts in flight suffice for all acquires that wait or are on their way to wait |
| LimiterLostDrain.DeficitKept | src/dex-limiter.c:117-259 | once the semaphore was closed, every lock region keeps the number of permits that are missing |
| LimiterLostDrain.LostWithNobodyWaiting | src/dex-limiter.c:555-560 | a run after which the drain is lost although no acquire waits yet |
| LimiterDrain.RunCalm | src/dex-limiter.c:537-629 | between uninterrupted calls nobody is on the way into the semaphore, and after close nobody is in it, in every run |
| LimiterDrain.DrainIsSound | src/dex-limiter.c:606-629 | with uninterrupted calls, from the moment a drain resolves the limiter is closed, idle and stays so |
| LimiterDrain.WorkShrinks | src/dex-limiter.c:189-259 | after close no call adds work, and every callback, release and post removes some |
| LimiterDrain.WorkCanGoOn | src/dex-limiter.c:189-259 | while there is work and no permit is held, some step can be taken |
| LimiterDrain.DrainResolvesInTheEnd | src/dex-limiter.c:138-157 | without work left, the look at the promise that is under way resolves it |
| Channels.Channel.OneReceive | src/dex-channel.c:265-317 | the oldest receiver gets the oldest item and the oldest sender moves up |
| Channels.Channel.Send | src/dex-channel.c:337-379 | accepted exactly while both sides are open; into the queue or to the end of sendq |
| Channels.Channel.Receive | src/dex-channel.c:392-428 | rejected when it can never be fulfilled, never while both sides are open; otherwise queued and paired |
| Channels.Channel.ReceiveAll | src/dex-channel.c:448-528 | the loop moves as many senders up as fit, in order, each with the queue length at entry |
| Channels.Channel.UnsetStateFlags | src/dex-channel.c:530-594 | the truncation loop and the stolen queues: who is refused and what is dropped, in order |
| ChannelTheorems.StepFaithful | src/dex-channel.c:265-594 | every operation keeps items, send promises and receivers in order, once each, and the shape of the queues |
| ChannelTheorems.RunFaithful | src/dex-channel.c:265-594 | the same along every run, for every capacity |
| ChannelTheorems.Fifo | src/dex-channel.c:265-528 | with the receive side open, accepted items are delivered ++ queue ++ sendq, in order; nothing is delivered twice |
| ChannelTheorems.BackPressure | src/dex-channel.c:259-299 | queue within capacity, senders wait only behind a full queue, receivers only before empty queues, never both |
| ChannelTheorems.PendingExactlyInSendq | src/dex-channel.c:361-376 | a send promise is pending if and only if its item is in sendq, and settles once |
| ChannelTheorems.ResolvesWithPlace | src/dex-channel.c:291-299 | in every run, a promise that a step resolves carries the place of its item in the queue that the item enters |
| ChannelTheorems.ReceiversInOrder | src/dex-channel.c:282-299 | receivers are answered in the order of their requests and get items in the order of acceptance |
| ChannelTheorems.DoneStaysDone | src/dex-channel.c:265-594 | outcomes and answers never change, closed sides never reopen |
| ChannelTheorems.OpenUntilClosed | src/dex-channel.c:530-594 | in every run a side is open exactly until a close of that side |
| ChannelTheorems.AcceptedUntilClosed | src/dex-channel.c:337-379 | in every run the sends accepted are those made before any close, and every receive is counted |
| ChannelTheorems.OpenRefusesNobody | src/dex-channel.c:403-420 | in every run, while both sides are open no receiver has been refused |
| ChannelTheorems.OpenReceive | src/dex-channel.c:403-428 | a receive on an open channel gets the oldest item at once, or without items waits as the last of recvq |
| ChannelTheorems.ReceiveAllTakesAll | src/dex-channel.c:448-528 | receive_all delivers the whole queue and nothing else, and the senders that fit take the places in order |
| ChannelTheorems.SendClosedRefusesAll | src/dex-channel.c:544-552 | the truncation loop refuses all waiting receivers or there are none |
| ChannelTheorems.NoReceiverWaitsAfterCloseSend | src/dex-channel.c:403-428 | after close_send every receiver ever made has its answer |
| ChannelTheorems.DrainsThenRejects | src/dex-channel.c:403-428 | after close_send any number of receives gets the backlog in order and then refusals |
| ChannelTheorems.NothingAfterCloseReceive | src/dex-channel.c:557-594 | after close_receive the three queues stay empty and nothing more is delivered |
| Futures.Future.Complete | src/dex-future.c:147-186 | the first completion sets the status and takes the whole list; later ones change nothing |
| Futures.Future.Chain | src/dex-future.c:418-438 | listed, awaiting, while pending; not listed when complete |
| Futures.Future.Discard | src/dex-future.c:440-513 | the loop unlinks exactly the registrations of the waiter, in order, and decides on the hook |
| Futures.Future.NotifyOrder | src/dex-future.c:102-136 | the last to register hears first |
| FutureTheorems.ActInv | src/dex-future.c:102-513 | every step keeps lists, queues, stages and the log of propagations consistent, and only moves forward |
| FutureTheorems.RunLater | src/dex-future.c:102-513 | the same along every run |
| FutureTheorems.CompletedOnce | src/dex-future.c:147-186 | a completed future keeps its result and an empty list for the rest of the run |
| FutureTheorems.ResultIsGiven | src/dex-future.c:147-186 | in every run a future has a result if and only if the step that found it pending gave it that result: a completion with it, or a propagation to a future without a hook from a target that has it |
| FutureTheorems.CompletesWith | src/dex-future.c:158-169 | a pending future that is completed has the result it is completed with, and in every continuation |
| FutureTheorems.HeardAtMostOnce | src/dex-future.c:102-136 | no registration is propagated twice, and each brings the result of its target |
| FutureTheorems.HeardExactlyOnce | src/dex-future.c:102-136 | at rest, a registration of a live waiter was propagated if and only if it was not discarded |
| FutureTheorems.NewestIsNotified | src/dex-future.c:102-136 | the next to be notified is the newest registration left; it is about to be propagated if its waiter lives |
| FutureTheorems.DiscardedIffRecalled | src/dex-future.c:440-499 | in every run a registration is discarded if and only if its waiter was discarded while the target was pending |
| FutureTheorems.DiscardedNeverHeard | src/dex-future.c:468-499 | a discarded registration is never propagated |
| FutureTheorems.CompletionBeatsDiscard | src/dex-future.c:440-499 | a discard after the completion takes nothing back |
| FutureTheorems.PlainWaiterCompletes | src/dex-future.c:382-416 | a waiter without a hook is complete once it was propagated to; with which result, the next row says |
| FutureTheorems.PropagatesWith | src/dex-future.c:396-412 | a propagation is of a completed target and brings its result; a pending waiter without a hook ends with exactly that result, and keeps it in every continuation |
| FutureTheorems.CancelIsExact | src/dex-future.c:440-513 | discard calls the class hook if and only if it removed a registration and none of anybody is left |
| Blocks.EvaluationIsUnique | src/dex-block.c:64-215 | the pure evaluation of a block has one result at most |
| Blocks.OnceKinds | src/dex-block.c:64-83 | kinds that do not loop: a resolve is handled if the THEN bit is set and a reject if the CATCH bit is; keep the input unless it is handled and the callback returns a future; then take that future's result |
| Blocks.LoopKinds | src/dex-block.c:169-175 | the loops end with the first result that is not handled or answered by NULL |
| Blocks.ThenMeans | src/dex-block.c:64-83 | then(): exactly the callback's answer to a resolve, and a reject unchanged |
| Blocks.CatchMeans | src/dex-block.c:64-83 | catch(): exactly the callback's answer to a reject, and a resolve unchanged |
| Blocks.FinallyMeans | src/dex-block.c:64-83 | finally(): exactly the callback's answer to either |
| Blocks.ThenLoopMeans | src/dex-block.c:169-175 | then_loop(): evaluates to a result if and only if a sequence of resolves, each answered by the next future, leads from the input to it, and it is a reject or answered by NULL |
| Blocks.CatchLoopMeans | src/dex-block.c:169-175 | catch_loop(): the same over rejects, up to a resolve or NULL |
| Blocks.FinallyLoopMeans | src/dex-block.c:169-175 | finally_loop(): the same over both, up to NULL |
| Blocks.TimingIsIrrelevant | src/dex-block.c:91-131 | when the returned futures complete does not change the evaluation |
| Blocks.Block.RunCallback | src/dex-block.c:91-131 | runs the callback, never a released one, and chains to the future it returns or gives up the callback |
| Blocks.Block.Hook | src/dex-block.c:152-215 | takes a resolve only with the THEN bit and a reject only with the CATCH bit; at once or deferred, by thread, scheduler and depth; either way along the evaluation |
| Blocks.Block.Propagate | src/dex-future.c:382-416 | what the block does not take care of completes it |
| Blocks.Block.WithinScheduler | src/dex-block.c:133-150 | the deferred callback, and the completion when it returns NULL |
| Blocks.Live | src/dex-block.c:152-215 | whatever threads and depths the calls are made on, a block completes with the result of the evaluation after exactly its callback runs, at most one if it is no loop, and does complete if the evaluation ends |
| Blocks.SameEitherWay | src/dex-block.c:185-211 | synchronous and deferred dispatch come to the same result |
| FutureSets.FutureSet.Count | src/dex-future-set.c:70-151 | what a child changes under the mutex and what it then decides |
| FutureSets.FutureSet.Propagate | src/dex-future-set.c:70-165 | counting and landing as one |
| FutureSets.Gather | src/dex-future-set.c:70-165 | for every order of completions the set takes the first verdict of that order, when it is reached |
| FutureSets.FirstIsMet | src/dex-future.c:789-814 | first() takes the first result |
| FutureSets.AnyIsMet | src/dex-future.c:727-753 | any() takes the first resolve and rejects if and only if all reject |
| FutureSets.AllRaceIsMet | src/dex-future.c:755-787 | all_race() takes the first reject and resolves if and only if all resolve |
| FutureSets.AllIsMet | src/dex-future.c:699-725 | all() completes exactly at the last child, with its status |
| FutureSets.Collect | src/dex-future-set.c:263-299 | the growing array holds exactly the arguments, in order, and is never overrun |
| FutureSetRaces.RunInv | src/dex-future-set.c:85-116 | under any interleaving the counters are the resolves and rejects counted, within the number of children, and the status is the verdict that landed first |
| FutureSetRaces.FirstMadeFirstLanded | src/dex-future-set.c:116-151 | the set holds the sequential result whenever the first verdict made is the first to land |
| FutureSetRaces.AllNeverRaces | src/dex-future-set.c:118-140 | all() has its documented result in every interleaving |
| FutureSetRaces.FirstTakesTheFirstLanded | src/dex-future-set.c:141-151 | first() takes the result of the child whose verdict lands first |
| FutureSetRaces.FirstMetIffFirstLands | src/dex-future-set.c:141-151 | first() has the first result if the child counted first lands first, and only then when the results differ pairwise |
| FutureSetRaces.FirstMayMiss | src/dex-future-set.c:116-151 | a run in which first() takes the second of two different results |
| FutureSetRaces.PromiseUnlessOvertaken | src/dex-future-set.c:116-151 | any() and all_race() keep their promise if and only if the last child does not overtake; a favourable outcome is that of a child |
| FutureSetRaces.AnyMayReject | src/dex-future-set.c:116-151 | a run in which any() rejects though a child resolved |
| FutureSetRaces.AllRaceMayResolve | src/dex-future-set.c:116-151 | a run in which all_race() resolves though a child rejected |
| TaskGroups.TaskGroup.Propagate | src/dex-task-group.c:82-163 | counts the child, keeps the first error, and decides when it was the last of a closed group |
| TaskGroups.TaskGroup.Close | src/dex-task-group.c:311-333 | closes, and decides when nothing is pending and the group is not complete |
| TaskGroups.RunOk | src/dex-task-group.c:71-336 | all verdicts made in a run agree, and one is made as soon as the group is closed with nothing pending |
| TaskGroups.CountersAddUp | src/dex-task-group.c:84-113 | pending + resolved + rejected is the number added, and resolved is the number of resolves, in every interleaving |
| TaskGroups.ClosedToLateChildren | src/dex-task-group.c:254-336 | in every run the group is closed from the first close on, its children are those added before, and it has seen their results in order |
| TaskGroups.CompleteOnlyWhenFinished | src/dex-task-group.c:115-163 | complete only when closed and all children done, with TRUE or the first rejection in completion order |
| TaskGroups.CompleteOnceFinished | src/dex-task-group.c:303-336 | and complete whenever that is so and no verdict is in flight |
| TaskGroups.CompleteForGood | src/dex-task-group.c:254-336 | a complete group stays as it is |
| Fibers.FiberScheduler.MoveTo | src/dex-fiber.c:100-123 | out of the queue the fiber was in, to the tail of the other |
| Fibers.FiberScheduler.Register | src/dex-fiber.c:544-571 | a new fiber joins the runnable queue |
| Fibers.FiberScheduler.Discard | src/dex-fiber.c:125-157 | a fiber that has not exited is cancelled, runnable or not, and made runnable if it is not |
| Fibers.FiberScheduler.Propagate | src/dex-fiber.c:159-202 | the fiber becomes runnable; its assertions are preconditions |
| Fibers.FiberScheduler.Return | src/dex-fiber.c:441-460 | an exited fiber leaves its queue and is released once |
| FiberSafety.ActInv | src/dex-fiber.c:100-202 | every step of the scheduler's thread and of other threads keeps queues, control and lifetimes consistent, and until a notice is late also flags, registrations and notices |
| FiberSafety.LateNotifyFails | src/dex-fiber.c:159-202 | a late notice fails an assertion at once, or makes the second part of the await fail |
| FiberSafety.RunInv | src/dex-fiber.c:100-202 | the invariant holds along every run |
| FiberTheorems.AssertionsFailIffLate | src/dex-fiber.c:180-187 | in every run an assertion of propagate or yield has failed if and only if a notice came to a fiber in a later await or exited, or else fails in the second part of the await under way |
| FiberTheorems.AssertionsHoldIfPrompt | src/dex-fiber.c:182-183 | no assertion fails in a run in which no fiber begins another await or exits with a notice on its way to it |
| FiberTheorems.AssertionsHoldIfUninterrupted | src/dex-fiber.c:182-183 | nor in a run in which every completion is followed at once by the notices that it causes |
| FiberExamples.AssertionMayFail | src/dex-fiber.c:645-650 | a run of one fiber, discarded while its future completes, that fails the assertion |
| FiberTheorems.NoLostWakeup | src/dex-fiber.c:620-651 | unless a notice was late: with the scheduler in control, each unreleased fiber is in exactly the queue it names; blocked means not cancelled, with exactly one registration, on a pending future, or exactly one notice, of the await it is in |
| FiberTheorems.CancelledIsRunnable | src/dex-fiber.c:636-640 | unless a notice was late: a cancelled fiber never stays blocked, whatever it awaits |
| FiberTheorems.CancelledIffDiscarded | src/dex-fiber.c:125-157 | in every run a fiber is cancelled if and only if it was discarded before it exited |
| FiberTheorems.DiscardWakes | src/dex-fiber.c:125-157 | a fiber discarded before it exits stays cancelled in every continuation and, unless a notice was late, is runnable or released whenever the scheduler has control |
| FiberTheorems.CompletionWakes | src/dex-fiber.c:159-202 | completing what a fiber waits for sends it one notice, which makes it runnable |
| FiberTheorems.RoundRobin | src/dex-fiber.c:412-493 | the next n turns after n fibers were seen runnable are theirs, one each, in queue order, whatever happens meanwhile |
| FiberTheorems.DispatchRunsAll | src/dex-fiber.c:467-493 | a run from n runnable fibers that stops after n turns, or with an empty queue, gave exactly those n a turn each, in order |
| FiberTheorems.IterationsAreFair | src/dex-fiber.c:412-465 | cut into iterations in any way, every run serves the fibers at the head of the queue one after the other |
| FiberTheorems.Dispatch | src/dex-fiber.c:467-493 | the counted loop over the iterations of any run gives exactly the fibers queued at entry a turn, once each and in order |

## Left out

- Reuse of memory: a finalized object is never reallocated in the model, so a late `dex_unref()` on it reads its old counters.
- Overflow of `ref_count`, of the semaphore counter, of queue lengths and of `guint` capacities.
- The weak memory model: atomic operations are taken as sequentially consistent.
- WeakRefTheorems.ListGuardsHold: the weak list is a sequence, so its `prev` and `next` pointers and the assertions about them are not modelled.
- `dex_weak_ref_set()` between two objects: one object is modelled, and set() attaches to it or detaches from it; one thread at a time is inside set() of a weak reference and nobody else touches one that is cleared, as its documentation demands.
- WeakRefTheorems.AtMostOnce: its condition is sufficient; the exact one is in WeakRefTheorems.OncePerClaimant.
- Limiters.Limiter.MarkAcquired: the error that a refused acquire reports (closed or cancelled) is not modelled.
- LimiterDrain.DrainIsSound: takes acquire, close and close_after_drain as uninterrupted; with their parts interleaved it is false, with LimiterTheorems.DrainFinalIffClosed and LimiterLostDrain.DrainResolvesIff as the exact conditions.
- `dex_limiter_run()` and its variants: an acquire, a spawn and a release.
- Channels.Channel.ReceiveAll: the set of futures it returns, and the plain receive that follows on an empty queue, are other operations of the model.
- Fairness of Futures.Future.NotifyOrder across threads: registrations of one future are notified by one thread, in this order, between steps of others.
- A future that is finalized with registrations on its list: the code asserts that there are none.
- Discarding or finalizing a block while it is pending, and the references it holds.
- FutureSets.FutureSet.Propagate: the discard of the remaining children after the set completed is not modelled; it cannot change the set.
- Task groups that are cancelled, CANCEL_ON_ERROR, thread-default groups, and the queue of the children, which is unlinked outside of the lock.
- FiberTheorems.NoLostWakeup: says nothing about runs with a late notice, in which an assertion has failed and the program has ended.
- Discarding a fiber that is not registered with a scheduler, or already released; stacks, contexts and the wakeup of the main context.
- Coroutines, the thread pool, timeouts, state machines, asynchronous I/O, GIO and D-Bus wrappers, typed variants of await and resolve, and the contents of values and errors.
