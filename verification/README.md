# A verified model of the mmuduo reactor runtime

mmuduo is a C++ network library built from event loops, one per thread.  This project models its
runtime in Dafny and proves what the library relies on.  What the kernel answers, what the clock
shows, what user callbacks do and how threads interleave are inputs, and the theorems hold for all of
them.

Each component comes as a **state machine** (`State`, `Event`, `Enabled`, `Step`, an invariant `Inv`,
theorems about every run) and as the **class** of the source, whose methods update fields in place.
A ghost field `run` of the class is the state of the machine, `Tracks()` ties the fields to it, and
every method says which step or steps it takes, so what is proved of all runs holds of the class.

| files | component |
|---|---|
| `Timestamps`, `Timers`, `TimerRuns`, `TimerGuarantees`, `TimerBatches`, `TimerCancel`, `TimerReads`, `TimerQueue` | timers: two redundant indexes over heap objects, one one-shot alarm, callbacks that add and cancel timers, addresses and sequence numbers that are used again |
| `LoopProtocol`, `EventLoop` | a loop's queue of functors and its wakeup, with any number of producers |
| `ConnStates`, `Stream`, `StreamGuarantees`, `StreamAccounts`, `HalfClose`, `TcpConnection` | one connection: sending, draining, half-close, close |
| `Poller` | channels, the poller's table and the kernel's |
| `Lifetime`, `LifetimeGuarantees`, `LifetimeAccounts`, `TcpServer` | connections handed between the base loop and the loop that serves them |
| `Bits`, `Kfifo`, `Buffer`, `ByteQueues` | the ring with free-running 32-bit counters, the compacting buffer, and the byte queue both implement |

`dafny verify dfyconfig.toml` checks everything.

## Where the code falls short

Some promises do not hold of the code as it is.  Each has an input for which it fails and the condition
under which it holds.

- A cancel carried out before the closure that adds the timer has run is lost (`EarlyCancelIsLost`); a
  cancel takes effect if and only if that closure is not pending (`CancelTakesEffect`).
- An id that outlives its timer can hit another one (`StaleIdHits`): if and only if that one has the same
  address, is not pending and was created a multiple of 2^32 creations earlier or later (`StaleIds`).
  The creation counter is a static `int` that all queues of the process share, although the sequence is
  stored in 64 bits.  Until it has counted 2^32 creations no id hits a foreign timer
  (`StaleIdsAreHarmless`).
- `mymuduo/TimerQueue.cpp:91-92` reads the sequence of a timer after handing it to the loop, which by then
  may have run and freed it (`SequenceReadDangles`).  On the loop's own thread the read comes at once.  On
  another thread it finds the timer, whatever happens in between, if and only if the timer repeats: its
  interval is positive (`ReadIsSafe`).
- A task the loop thread queues before it calls `loop()` is slept on (`EarlyPushSleeps`), and that is
  the only way to sleep on work (`NoLostWakeup`).
- A `quit` before `loop()` clears the flag can be forgotten (`EarlyQuitIsForgotten`).  A `quit` is honoured,
  whatever follows it, if and only if `loop()` has cleared the flag when it is called (`QuitIsHonoured`).
- `mymuduo/TcpConnection.cpp:192` has the call that would retrieve what was sent commented out, while
  the comment above it relies on it; so bytes are sent again (`AsBuiltRepeats`), and bytes that do not
  fit the ring are dropped (`AsBuiltDrops`).  The order of the stream is kept if and only if the queue
  retrieves (`LawNeedsRetrieving`) and what is queued fits it (`LawNeedsRoom`).  These runs take each
  call of the ring as one operation, without its lock: as built, `mymuduo/kfifo.cpp:89-95` locks a mutex
  that is not recursive and calls a getter that locks it again.
- The write handler can half-close while bytes its caller handed to `send` before a `shutdown` still wait in
  the loop's queue (`HalfCloseOvertakesSend`).  All the caller has sent precedes the half-close, in every run,
  if and only if, at the moment the state is set, the queued closures up to the caller's last queued send that
  brings bytes bring none, or one of them does and the output queue is empty (`ShutdownWaits`).  What the loop's own thread has
  sent always precedes it (`OwnShutdownWaits`).
- A shutdown closure run after a close can half-close before queued bytes (`LateClosureHalfCloses`): if
  and only if the connection has been closed with bytes queued (`ClosureHalfClosesEarly`).
- `shutdown` tests the state and then assigns it; a close in between is undone
  (`ShutdownRaceReopens`).  The state never goes back if and only if that does not happen
  (`StateAdvances`).
- Such a shutdown also ends the hand-off between the loops: a send that finds the state back at disconnecting
  registers the removed channel again, and when the last reference goes the loop can be left with a report of
  a channel that is gone (`LateShutdownDangles`).  The invariant behind the guarantees of `LifetimeGuarantees`
  survives a step if and only if that step is not such a shutdown (`InvNeedsTimely`), and they hold for every
  run without one.
- `disableAll` on a channel that is not registered registers it with the empty mask
  (`DisablingTwiceRegisters`): of consecutive calls every second one does, and `EmptyMaskToggles` says
  exactly which.  A connection closed twice in one dispatch does this (`ClosingTwiceRegisters`): that is, on
  a report of `EPOLLHUP` and `EPOLLPRI` without `EPOLLIN` when the read finds the end of file, and in no
  other case (`ClosesTwice`).
- `initBuffer` has a result if and only if the request is at most 2^31, and rounds a request for nothing
  to 4, not 2 (`RoundUp`).

## Reading the models

- A method that holds a mutex for its whole work is one step.  `send` and `shutdown` called by other
  threads are several steps, because they test the state before they go on; `queueInLoop` is two, the push
  and the write.
- The clock of the timers is the clock of the alarm, and never goes back.  `double` seconds are reals.
- A descriptor the kernel hands out is not that of a connection still alive, whose socket is open.
- A timer's number is what the counter of the process held when it was constructed.  Other queues draw from
  the same counter, so the numbers of one queue are any distinct numbers, in any order.
- The kernel takes no more bytes than it is offered, and none after the half-close.
- A timer's address is a number below the largest address, chosen freely among those not in use.
- An event log, the wire, the set of timers freed by a cancel and similar fields of a `State` are
  history: no step depends on them.

## Model

| member | source | states |
|---|---|---|
| Timestamps.AddTimeMovesForward | mymuduo/Timestamp.h:36-40 | adding a positive interval moves a time forward by it in whole microseconds: never back, and forward exactly from one microsecond on |
| Timestamps.AddTimeCountsMicros | mymuduo/Timestamp.h:36-40 | adding any number of seconds, also a negative one, adds that many microseconds with what is less than one dropped, toward zero |
| Timestamps.ResetArms | mymuduo/TimerQueue.cpp:21-58 | the setting given to the kernel is legal, never disarms, and makes the alarm go off at the expiration, or 100 microseconds from now if that is later |
| Timers.SequencesRepeat | mymuduo/Timer.h:14-35 | a sequence fits 32 bits and is the number of the creation exactly up to 2^31; two timers get the same one exactly when a multiple of 2^32 creations separates them |
| Timers.TimerCounter.Construct | mymuduo/Timer.h:9-14 | every construction, for whatever queue, gets the number of those before it in the process |
| Timers.SizesAgree | mymuduo/TimerQueue.cpp:123-135 | when the two indexes hold the same timers they have the same size, which the assertions compare |
| Timers.InsertKeepsAgreement | mymuduo/TimerQueue.cpp:227-251 | inserting an allocated timer keeps the indexes in agreement |
| Timers.CancelKeepsAgreement | mymuduo/TimerQueue.cpp:121-136 | cancelling keeps the indexes in agreement and frees the named timer if it is live; no other timer, no other noted id and not the alarm is touched, and an id that is not active changes neither index nor heap |
| Timers.ExtractKeepsAgreement | mymuduo/TimerQueue.cpp:168-187 | exactly the due timers leave, from both indexes |
| Timers.ResettleKeepsAgreement | mymuduo/TimerQueue.cpp:195-212 | timers restarted under a new expiration re-enter both indexes, keys and field agreeing; exactly they and the old ones are live |
| TimerRuns.AddCovers | mymuduo/TimerQueue.cpp:107-114 | arming only for a new earliest timer leaves every queued timer covered by the alarm |
| TimerRuns.ResetCovers | mymuduo/TimerQueue.cpp:214-222 | after a batch every queued timer is covered again, also when the next expiration is not a valid timestamp and the alarm is left alone |
| TimerRuns.StepKeepsInv | mymuduo/TimerQueue.cpp:88-251 | every step keeps index agreement, one owner for each allocated timer, the keys of the batch, the coverage by the alarm and distinct births |
| TimerRuns.FunctorTarget | mymuduo/TimerQueue.cpp:88-101 | a queued closure that adds a timer finds it allocated and in no index |
| TimerGuarantees.BatchExists | mymuduo/TimerQueue.cpp:168-176 | every set of entries has a listing in the order of the queue |
| TimerGuarantees.BatchIsDetermined | mymuduo/TimerQueue.cpp:168-176 | that listing is the only one: the queue determines the order in which callbacks run |
| TimerGuarantees.NoLostTimer | mymuduo/TimerQueue.cpp:107-222 | in every run, outside the read handler, the alarm covers every queued timer: due, and past the floor after the last arming, means readable; and reading extracts exactly what is due |
| TimerGuarantees.OneOwnerEach | mymuduo/TimerQueue.cpp:88-222 | in every run an allocated timer is pending, in both indexes or in the batch, exactly one of the three; nothing there dangles; the sizes agree |
| TimerGuarantees.StepKeepsHistory | mymuduo/TimerQueue.cpp:145-222 | every step keeps what the log says: no early call, calls an interval apart, no timer leaves the heap unrun and uncancelled |
| TimerGuarantees.CallbacksAreOnTime | mymuduo/TimerQueue.cpp:145-212 | in every run no callback runs before it is due; the first is due when its creator said; a second belongs to a repeating timer and is due, in whole microseconds, at least its interval after the batch of the first |
| TimerGuarantees.OneShotRunsOnce | mymuduo/TimerQueue.cpp:145-212 | in every run a one-shot timer runs at most once, and once it is freed it has run exactly if no cancel freed it first |
| TimerGuarantees.Rescheduling | mymuduo/TimerQueue.cpp:195-212 | a batch member survives exactly if it repeats and was not cancelled; it goes on at the batch time plus its interval in whole microseconds |
| TimerBatches.ReadingConsumesExpiry | mymuduo/TimerQueue.cpp:145-154 | beginning the read handler leaves the alarm not readable at that time, and one that is still to go off as it was |
| TimerBatches.AlarmAfterBatch | mymuduo/TimerQueue.cpp:214-222 | ending it sets the alarm for the first of the queue, or for 100 microseconds from now if that is later, when that is a valid timestamp; otherwise the alarm stays as it was |
| TimerBatches.AlarmAfterAdding | mymuduo/TimerQueue.cpp:107-114 | adding a timer sets the alarm for it, or for 100 microseconds from now, if it is earlier than all others; otherwise the alarm stays as it was |
| TimerBatches.AlarmIsLeftAlone | mymuduo/TimerQueue.cpp:88-136 | time, cancels, callbacks and closures on their way leave the alarm as it was |
| TimerBatches.HandlerQuietsAlarm | mymuduo/TimerQueue.cpp:145-162 | a whole run of the handler does not leave the alarm readable when a valid expiration is next, nor when the alarm prompted it and no callback added a timer: one expiry wakes the loop once, also when no timer is left |
| TimerBatches.BatchIsCalled | mymuduo/TimerQueue.cpp:156-158 | whatever callbacks and other threads do, the members of a batch are called one by one, each once, in order |
| TimerBatches.WhoIsCalled | mymuduo/TimerQueue.cpp:145-162 | a whole run of the handler calls exactly the timers due when it began, each once, in the order of the queue |
| TimerBatches.WhoIsLeft | mymuduo/TimerQueue.cpp:145-222 | after a whole run of the handler a timer that was due is allocated exactly if it repeats and no callback cancelled it, whatever was cancelled before; it is then in the queue, its interval after the beginning |
| TimerCancel.DoomedStep | mymuduo/TimerQueue.cpp:121-212 | a timer freed, or cancelled while in the batch, stays so at every step, and only its turn in this batch can still call it |
| TimerCancel.CancelSticks | mymuduo/TimerQueue.cpp:121-212 | in every continuation such a timer is called at most once more, not at all if it is not waiting in the present batch, and never re-enters the queue |
| TimerCancel.CancelTakesEffect | mymuduo/TimerQueue.cpp:121-136 | a cancel takes effect if and only if the closure adding the timer is not pending; a live timer is freed at once |
| TimerCancel.EarlyCancelDoesNothing | mymuduo/TimerQueue.cpp:121-136 | a cancel that overtakes the closure adding its timer changes nothing outside a batch |
| TimerCancel.EarlyCancelIsLost | mymuduo/TimerQueue.cpp:88-136 | a run in which that happens, and the cancelled timer is in the queue |
| TimerCancel.OffLoopCancelArrives | mymuduo/TimerQueue.cpp:88-101 | a cancel queued behind the closure adding the timer is obeyed once the queue has been run, whatever happens in between |
| TimerCancel.OffLoopCancelSetsOut | mymuduo/TimerQueue.cpp:88-101 | a thread outside the loop that creates and then cancels a timer queues the two in that order |
| TimerCancel.StaleIds | mymuduo/TimerQueue.cpp:121-136 | an id used after its timer is gone hits another timer if and only if that has the same address, is not pending and a multiple of 2^32 creations of the process, by whatever queue, lies between |
| TimerCancel.StaleIdsAreHarmless | mymuduo/TimerQueue.cpp:121-136 | while the process has created at most 2^32 timers an id never hits a timer it was not made for |
| TimerCancel.StaleIdHits | mymuduo/Timer.h:14-35 | a run of this queue, while others create 2^32 - 1 timers, in which an id cancels a foreign timer |
| TimerReads.StaysUntilFreed | mymuduo/TimerQueue.cpp:121-212 | in every continuation a timer stays at its address until it is freed, which takes a call of its callback or a cancel |
| TimerReads.StaysThroughout | mymuduo/TimerQueue.cpp:195-212 | a repeating timer whose id no cancel names is at its address after every continuation |
| TimerReads.OneShotGoes | mymuduo/TimerQueue.cpp:145-212 | from any state, batch or none, the loop left to itself can run and free a timer that does not repeat, beginning the read handler only when the alarm is readable |
| TimerReads.ReadIsSafe | mymuduo/TimerQueue.cpp:88-93 | the read of the sequence finds the new timer at once on the loop's thread; on another thread it does, whatever happens between the hand-over and the read and as long as nobody can name the timer, if and only if the interval is positive |
| TimerReads.SequenceReadDangles | mymuduo/TimerQueue.cpp:88-93 | a run in which a one-shot timer is run and freed before the read |
| TimerQueues.LowerBound | mymuduo/TimerQueue.cpp:173 | the first entry not before the key: all before it precede the key, none from it on does |
| TimerQueues.SplitAtSentry | mymuduo/TimerQueue.cpp:171-176 | the sentry with the largest address splits the queue into exactly the due entries and the others |
| TimerQueues.ExtractionAgrees | mymuduo/TimerQueue.cpp:168-187 | erasing the batch, entry by entry, from both indexes is extracting what is due |
| TimerQueues.ResettledGrows | mymuduo/TimerQueue.cpp:198-212 | settling the batch member by member adds up to settling it as a whole |
| TimerQueues.TimerQueue.constructor | mymuduo/TimerQueue.cpp:61-70 | a new queue is at the start of its run |
| TimerQueues.TimerQueue.SameSizes | mymuduo/TimerQueue.cpp:123-135 | the ordered index and the other one have equally many elements |
| TimerQueues.TimerQueue.ResetTimerfd | mymuduo/TimerQueue.cpp:47-58 | the alarm goes off at the expiration, or 100 microseconds from now if that is later, and nothing else changes |
| TimerQueues.TimerQueue.Insert | mymuduo/TimerQueue.cpp:227-251 | the timer enters both indexes, the order is kept, and the result tells whether it is earlier than all others |
| TimerQueues.TimerQueue.AddTimerInLoop | mymuduo/TimerQueue.cpp:107-114 | inserts, and arms exactly for a new earliest timer |
| TimerQueues.TimerQueue.CancelInLoop | mymuduo/TimerQueue.cpp:121-136 | takes a live timer out of both indexes and frees it, or notes the id while callbacks run |
| TimerQueues.TimerQueue.GetExpired | mymuduo/TimerQueue.cpp:168-187 | returns the due entries in order and leaves the others, both indexes agreeing |
| TimerQueues.TimerQueue.Reset | mymuduo/TimerQueue.cpp:195-222 | restarts or frees every batch member, and arms for the next expiration if that is valid |
| TimerQueues.TimerQueue.AddTimer | mymuduo/TimerQueue.cpp:88-93 | not interrupted, takes the step of the machine that creates a timer under the next number of the process, and returns its address and sequence; the counter stays ahead of all numbers given |
| TimerQueues.TimerQueue.Submit | mymuduo/TimerQueue.cpp:88-91 | the first part of that, up to the hand-over: the timer has the next number of the process and is allocated; anything may follow |
| TimerQueues.TimerQueue.ReadId | mymuduo/TimerQueue.cpp:92 | the second part, of a timer that must still be allocated: its address and its sequence |
| TimerQueues.TimerQueue.HandOver | mymuduo/TimerQueue.cpp:88-93 | a constructed timer is at its address, and pending or in both indexes: the machine's step |
| TimerQueues.TimerQueue.Cancel | mymuduo/TimerQueue.cpp:99-101 | takes the step of the machine that cancels |
| TimerQueues.TimerQueue.RunFunctor | mymuduo/TimerQueue.cpp:88-136 | the loop runs the first closure queued, and takes the machine's step |
| TimerQueues.TimerQueue.ReadTimerfd | mymuduo/TimerQueue.cpp:35-42 | an expiry that has happened is used up, and one to come is left |
| TimerQueues.TimerQueue.BeginHandling | mymuduo/TimerQueue.cpp:145-154 | the handler up to the first callback: the due entries in order, the alarm not readable, nothing noted as cancelled; the machine's step |
| TimerQueues.TimerQueue.EndHandling | mymuduo/TimerQueue.cpp:159-222 | the handler after the last callback: the machine's step, and the alarm set exactly for the first of the queue or the floor |
| TimerQueues.TimerQueue.HandleRead | mymuduo/TimerQueue.cpp:145-162 | extracts, calls every member of the batch in order, each a live object, whatever the callbacks and other threads do, and settles: the run of the machine for these events; the alarm is then set for the first of the queue, or the floor, if that is a valid timestamp |
| TimerQueues.HandlingIsPossible | mymuduo/TimerQueue.cpp:145-162 | left to itself the handler goes through whatever batch it finds, to its end |
| LoopProtocol.StepKeepsInv | mymuduo/EventLoop.cpp:65-183 | every step of the loop, of its user code and of other threads keeps the order of tasks, the wakeup and what is known before the first swap |
| LoopProtocol.NoLostWakeup | mymuduo/EventLoop.cpp:65-115 | in every interleaving the loop sleeps on work if and only if, before its first swap, its own thread queued a task before entering and no other thread has touched the queue |
| LoopProtocol.WakeupIsDelivered | mymuduo/EventLoop.cpp:150-169 | otherwise the sleep ends at once, or after the write of a thread that owes one |
| LoopProtocol.EarlyPushSleeps | mymuduo/EventLoop.cpp:104-115 | a run in which the loop sleeps on its own early task |
| LoopProtocol.EarlyQuitIsForgotten | mymuduo/EventLoop.cpp:65-93 | a run in which a quit before entry is forgotten |
| LoopProtocol.QuitStaysUp | mymuduo/EventLoop.cpp:65-93 | once the flag is up in a loop that has cleared it, it stays up in every continuation, the next test ends the loop for good, and no later poll begins |
| LoopProtocol.QuitIsHonoured | mymuduo/EventLoop.cpp:85-93 | a quit makes the next test of the flag the last in every continuation if and only if the loop has cleared the flag when it is called |
| LoopProtocol.FlagIsExplained | mymuduo/EventLoop.cpp:65-93 | at the end of any run the flag is up if and only if a quit, or the flag at the start, is not followed by a clearing |
| LoopProtocol.LeavesOnlyByQuit | mymuduo/EventLoop.cpp:65-93 | in every run the flag is up, as it is whenever the loop has left, if and only if some quit is not followed by a clearing |
| LoopProtocol.DescriptorIsExplained | mymuduo/EventLoop.cpp:150-169 | at the end of any run the descriptor is readable if and only if a write, or what it held at the start, is not followed by a draining |
| LoopProtocol.WritesAddUp | mymuduo/EventLoop.cpp:150-161 | from one draining to the next the counter goes up by one for each write, up to its maximum |
| LoopProtocol.WritesArePaid | mymuduo/EventLoop.cpp:85-115 | in every run each push and each quit of another thread is followed by one write of that thread, before its next |
| LoopProtocol.ReportedIsDrained | mymuduo/EventLoop.cpp:70-77 | a poll that reports the wakeup channel is followed by exactly one draining before the handlers end, any other by none |
| LoopProtocol.ExactlyOnceInOrder | mymuduo/EventLoop.cpp:104-183 | at every moment the tasks called, the rest of the batch and the queue are, in this order, all tasks ever queued |
| LoopProtocol.OneAtATime | mymuduo/EventLoop.cpp:179-181 | over any run the tasks called are as many as the turns of the batch's loop |
| LoopProtocol.RunGrows | mymuduo/EventLoop.cpp:172-183 | what was queued stays in the history, what was called stays called, and only a swap changes the batch |
| LoopProtocol.BatchIsFixed | mymuduo/EventLoop.cpp:172-183 | a batch cannot grow or shrink while it runs, whatever is queued meanwhile |
| LoopProtocol.OneTurnDelivers | mymuduo/EventLoop.cpp:172-183 | everything queued by some moment has been called once the batch of a later swap is done |
| EventLoops.EventLoop.constructor | mymuduo/EventLoop.cpp:40-52 | a new loop is at the start of its run |
| EventLoops.EventLoop.WakeUp | mymuduo/EventLoop.cpp:150-161 | the counter goes up by one unless it is at its maximum; the descriptor is readable |
| EventLoops.EventLoop.HandRead | mymuduo/EventLoop.cpp:163-169 | reading the descriptor leaves nothing in it: the machine's draining step |
| EventLoops.EventLoop.QueueInLoop | mymuduo/EventLoop.cpp:104-115 | the loop thread's own call: the new functor is last in the queue, and the descriptor is written exactly while a batch runs |
| EventLoops.EventLoop.QueueFromThread | mymuduo/EventLoop.cpp:104-115 | another thread's call: the new functor is last in the queue and the descriptor is readable |
| EventLoops.EventLoop.DoPendingFunctors | mymuduo/EventLoop.cpp:172-183 | calls exactly what was queued, in order; what is queued meanwhile stays for the next turn |
| EventLoops.EventLoop.SwapFunctors | mymuduo/EventLoop.cpp:173-178 | the batch is exactly what was queued, and nothing is called yet |
| EventLoops.EventLoop.TakeTurn | mymuduo/EventLoop.cpp:69-78 | a turn is the run of the machine for its events; afterwards the descriptor is readable exactly for a write its draining has not followed |
| EventLoops.EventLoop.TakeTurns | mymuduo/EventLoop.cpp:69-79 | the turns are the run of the machine for their events, and all are taken: none is possible with the flag up |
| EventLoops.EventLoop.Loop | mymuduo/EventLoop.cpp:65-82 | the turns of the loop are the run of the machine for their events, and it returns early only with the flag up |
| EventLoops.NoTurnAfterQuit | mymuduo/EventLoop.cpp:69 | with the flag up no further turn is possible |
| EventLoops.TurnIsPossible | mymuduo/EventLoop.cpp:69-79 | in every other state the loop tests the flag in there is one, with the wakeup channel reported exactly if the descriptor is readable; undisturbed, it calls all that was queued and leaves the descriptor drained |
| Pollers.PollerAgreesWithKernel | mymuduo/EpollPoller.cpp:32-61 | after any sequence of mask changes and removals the kernel holds the channel exactly if its index is added, with its mask; the table holds it exactly if its index is not new; deleted means an empty mask; the next request, whichever it is, is legal |
| Pollers.LastMaskIsWatched | mymuduo/EpollPoller.cpp:32-61 | the mask is the one set last; the kernel watches exactly that if it is not empty and no removal has followed, and after a removal nothing |
| Pollers.EmptyMaskToggles | mymuduo/EpollPoller.cpp:32-61 | exactly when a channel is registered with nothing to watch, by the number of empty masks set in a row |
| Pollers.DisablingTwiceRegisters | mymuduo/Channel.h:66-69 | a channel watched for reading and then disabled twice is registered with the empty mask |
| Pollers.EpollPoller.Update | mymuduo/EpollPoller.cpp:92-109 | a legal request changes the kernel's entry of this channel and no other |
| Pollers.EpollPoller.UpdateChannel | mymuduo/EpollPoller.cpp:42-61 | index, table and kernel follow the mask as in the machine, other channels untouched |
| Pollers.EpollPoller.RemoveChannel | mymuduo/EpollPoller.cpp:32-40 | the channel is unknown to table and kernel, other channels untouched, the agreement kept |
| Pollers.EpollPoller.HasChannel | mymuduo/Poller.cpp:4-7 | the table holds the channel exactly if its index is not new |
| Pollers.EpollPoller.EnableReading | mymuduo/Channel.h:50-53 | the channel is registered and reading is on, writing as before |
| Pollers.EpollPoller.DisableReading | mymuduo/Channel.h:54-57 | reading is off, writing as before; the channel stays registered, with that mask, unless it was and the mask is now empty |
| Pollers.EpollPoller.EnableWriting | mymuduo/Channel.h:58-61 | the channel is registered and writing is on, reading as before |
| Pollers.EpollPoller.DisableWriting | mymuduo/Channel.h:62-65 | writing is off, reading as before; the channel stays registered, with that mask, unless it was and the mask is now empty |
| Pollers.EpollPoller.DisableAll | mymuduo/Channel.h:66-69 | the mask is empty; a registered channel is deleted, one that is not becomes registered |
| Pollers.EpollPoller.FillActiveChannels | mymuduo/EpollPoller.cpp:111-118 | the active list is, in the kernel's order, the channels of the reported descriptors, all of them registered and open; each is told the bits reported of it, and no other channel is |
| Pollers.EpollPoller.Report | mymuduo/Channel.h:44 | storing the reported bits changes nothing the poller keeps |
| Streams.StepKeepsInv | mymuduo/TcpConnection.cpp:56-226 | with a queue that keeps and retrieves, every step that no close overtakes keeps the order of the bytes, the interest, and what each shutdown has promised |
| StreamGuarantees.RunIsIdeal | mymuduo/TcpConnection.cpp:70-214 | a queue of any capacity that retrieves does, in every run in which what is queued fits it, what an unbounded one does |
| StreamGuarantees.StreamOrder | mymuduo/TcpConnection.cpp:70-214 | with any queue that retrieves, in every timely run in which what is queued fits it, the bytes taken on are those on the wire followed by those in the queue; until the close read interest is on, and write interest exactly while the queue holds something |
| StreamGuarantees.LawNeedsRetrieving | mymuduo/TcpConnection.cpp:189-192 | the order survives a write of queued bytes if and only if the queue drops what was sent |
| StreamGuarantees.LawNeedsRoom | mymuduo/TcpConnection.cpp:107-117 | the order survives a send if and only if what the kernel did not take fits the queue, is nothing, or is given up because of a fault |
| StreamGuarantees.AsBuiltDrops | mymuduo/TcpConnection.cpp:107-117 | a run of the connection as built in which of 4097 bytes taken on the last is neither on the wire nor queued |
| StreamGuarantees.AsBuiltRepeats | mymuduo/TcpConnection.cpp:185-213 | a run of the connection as built in which one accepted byte is on the wire twice |
| StreamGuarantees.HalfCloseComesLast | mymuduo/TcpConnection.cpp:133-138 | up to the close, the half-close happens only when every byte taken on is on the wire |
| StreamGuarantees.ClosureHalfClosesEarly | mymuduo/TcpConnection.cpp:133-138 | a shutdown closure half-closes with bytes queued if and only if the connection has been closed with bytes queued |
| StreamGuarantees.LateClosureHalfCloses | mymuduo/TcpConnection.cpp:133-138 | a run in which it does |
| StreamGuarantees.StateAdvances | mymuduo/TcpConnection.cpp:126-226 | the state goes back at a step if and only if that step is a shutdown completing after the close |
| StreamGuarantees.ClosedStaysClosed | mymuduo/TcpConnection.cpp:70-226 | in every continuation without such a step a closed connection watches nothing and writes nothing |
| StreamGuarantees.DispatchThatCloses | mymuduo/Channel.cpp:68-90 | a dispatch that delivers close, read and write together and closes the connection writes nothing and does not half-close, whatever the callbacks send or shut down |
| StreamGuarantees.ClosingsOfDispatch | mymuduo/Channel.cpp:68-90 | a dispatch closes once for a hang-up without input and once for a read that finds the end of file |
| StreamGuarantees.ClosesTwice | mymuduo/Channel.cpp:68-90 | a dispatch closes at most twice, and twice if and only if the report has the hang-up and priority bits but not the input bit, and the read finds the end of file |
| StreamGuarantees.ShutdownRaceReopens | mymuduo/TcpConnection.cpp:126-131 | a run in which a shutdown overtaken by the close reopens the connection, which then writes |
| StreamAccounts.StateMoves | mymuduo/TcpConnection.cpp:126-226 | the state moves by establishing, shutting down and closing, and by nothing else: for each state, exactly when it is reached and left |
| StreamAccounts.ReadCloses | mymuduo/TcpConnection.cpp:170-183 | a read that brings bytes, or an error, changes nothing of the connection; it closes it if and only if it finds the end of file |
| StreamAccounts.DispatchCloses | mymuduo/Channel.cpp:68-90 | after a whole dispatch, with all its callbacks, the connection is closed if and only if it was before, or a hang-up came without input, or a read found the end of file |
| StreamAccounts.DispatchHandles | mymuduo/Channel.cpp:68-90 | each bit of a report brings its handler, once: the close before the read before the write |
| StreamAccounts.DispatchCalls | mymuduo/Channel.cpp:68-90 | the callbacks make their calls on the close, and on the message or the end of file, and at no other time |
| StreamAccounts.OutputAddsWrite | mymuduo/Channel.cpp:85-89 | the output bit adds the write handler at the end and nothing else |
| StreamAccounts.DispatchIsPossible | mymuduo/Channel.cpp:68-90 | whatever is reported of an established connection can be dispatched |
| StreamAccounts.WireGrows | mymuduo/TcpConnection.cpp:70-214 | with any queue, every step adds to the wire exactly the bytes the kernel says it took of those it was offered |
| StreamAccounts.RunAccounts | mymuduo/TcpConnection.cpp:56-123 | with any queue, over any run, what was held and handed in is what is held and given up; in the order of arrival if nothing is given up and no send overtakes |
| StreamAccounts.GivenUpFor | mymuduo/TcpConnection.cpp:70-123 | in every timely run bytes are given up only by a fault or after the close |
| StreamAccounts.EveryByteIsAccountedFor | mymuduo/TcpConnection.cpp:56-214 | in every timely run in which what is queued fits the queue, every byte handed to send is, once, on the wire, in the output queue or in a closure, or given up by a fault or the close; and in the order of handing over, if none is given up and no send on the loop's thread overtakes a queued one |
| StreamAccounts.CallsAddUp | mymuduo/TcpConnection.cpp:56-131 | in every run the sends and shutdowns past their test are the tests less the pushes and assignments |
| StreamAccounts.PushedOnce | mymuduo/TcpConnection.cpp:126-131 | in every run the closure of a shutdown is pushed at most once, and exactly once if it is no longer owed |
| StreamAccounts.ShutdownIsCarriedOut | mymuduo/TcpConnection.cpp:126-206 | in every run, whatever the queue does, a connection that has been shut down and not closed, with no shutdown closure ahead and nothing to write, is half-closed |
| HalfClose.HalfCloseKeepsPromises | mymuduo/TcpConnection.cpp:126-138 | in every timely run, at the half-close of a connection that is not closed and has given up no bytes, what the caller of any shutdown had sent before it is on the wire if and only if none of it waits in the loop's queue, whether that shutdown's closure is not yet pushed, queued or run; its own closure always finds it so |
| HalfClose.OnePlaceIsKept | mymuduo/TcpConnection.cpp:195-206 | from any state in which what waits ahead of a shutdown is in one place, every continuation up to the half-close puts all of it on the wire |
| HalfClose.LateDrainKeeps | mymuduo/TcpConnection.cpp:133-206 | when a shutdown's closure has run while writing, a later drain half-closes only after everything promised is on the wire |
| HalfClose.TwoPlacesOvertake | mymuduo/TcpConnection.cpp:195-206 | from any other such state there is a continuation that half-closes first |
| HalfClose.HalfCloseOvertakesSend | mymuduo/TcpConnection.cpp:195-206 | a run in which the write handler half-closes before a queued send |
| HalfClose.ShutdownWaits | mymuduo/TcpConnection.cpp:126-131 | at the call: all a thread has sent before its shutdown precedes the half-close in every continuation if and only if, when the state is set, the closures up to its last queued send that brings bytes bring none, or one does and the output queue is empty |
| HalfClose.OwnShutdownWaits | mymuduo/TcpConnection.cpp:126-131 | for a shutdown on the loop's thread: if and only if the closures it counts bring no bytes; what that thread has sent itself always precedes the half-close |
| TcpConnections.TcpConnection.WriteBuffer | mymuduo/kfifo.cpp:88-107 | appends a prefix, and all of the bytes if and only if they fit |
| TcpConnections.TcpConnection.Send | mymuduo/TcpConnection.cpp:56-65 | sends at once on the loop's thread, queues from another, and does nothing unless connected |
| TcpConnections.TcpConnection.SendInLoop | mymuduo/TcpConnection.cpp:70-123 | takes the machine's step: writes directly only if nothing waits, queues what is left unless a fault made it pointless, and turns write interest on |
| TcpConnections.TcpConnection.Shutdown | mymuduo/TcpConnection.cpp:126-131 | takes the machine's steps: marks the state and half-closes, or marks the state and then queues that |
| TcpConnections.TcpConnection.ShutdownInLoop | mymuduo/TcpConnection.cpp:133-138 | half-closes unless write interest is on; on a connection that is not closed everything taken on is then on the wire |
| TcpConnections.TcpConnection.ConnectEstablished | mymuduo/TcpConnection.cpp:142-149 | connected, with reading on, before the connection callback makes its calls: the run of the machine for these |
| TcpConnections.TcpConnection.ConnectDestroyed | mymuduo/TcpConnection.cpp:152-160 | closes a connection still connected, before the connection callback makes its calls, and leaves one already closed as it is: the run of the machine for these |
| TcpConnections.TcpConnection.HandleRead | mymuduo/TcpConnection.cpp:170-183 | closes at the end of file and no other count; an error changes nothing, and bytes lead to the calls the message callback makes, in order, and nothing else: the run of the machine for these |
| TcpConnections.TcpConnection.HandleWrite | mymuduo/TcpConnection.cpp:185-214 | takes the machine's step: drains, turns write interest off when nothing is left, then carries out a pending shutdown |
| TcpConnections.TcpConnection.HandleClose | mymuduo/TcpConnection.cpp:216-226 | closed, and watching nothing, before the connection callback makes its calls: the run of the machine for these |
| TcpConnections.TcpConnection.HandleEvent | mymuduo/Channel.cpp:68-90 | the handlers of one dispatch, with the calls of the message and connection callbacks, are the run of the machine for the events the bits select, in their order; the connection is closed afterwards exactly as `DispatchCloses` says |
| Lifetime.ConnKept | mymuduo/TcpServer.cpp:67-123 | every step leaves each connection where its state says: in the map while open; once closed, in the map only with its removal under way, and known to the poller outside the map only with its destruction under way |
| Lifetime.WorkKept | mymuduo/EventLoop.cpp:104-115 | every step leaves in the queues and batches only closures that fit their connection and loop, and no connection to be established twice |
| Lifetime.HandlingKept | mymuduo/EventLoop.cpp:70-77 | no step makes a poller forget a channel of an active list being handled |
| Lifetime.AliveShrinks | mymuduo/Channel.cpp:44-53 | no step makes a reference to a connection that had none: a dispatch ties only to a living one |
| Lifetime.DescriptorsKept | mymuduo/TcpConnection.cpp:24-48 | connections that are alive have different descriptors, after every step |
| Lifetime.StepKeepsInv | mymuduo/TcpServer.cpp:67-123 | every step of any loop or user keeps all of this, but a shutdown that assigns after the close |
| Lifetime.InvNeedsTimely | mymuduo/TcpConnection.cpp:126-131 | the invariant survives a step if and only if the step is not a shutdown that assigns after the close; such a step breaks it at its connection |
| Lifetime.KnownIsOwned | mymuduo/TcpServer.cpp:111-123 | a channel known to a poller belongs to a connection that the map, a removal or a destruction holds, so it is alive |
| LifetimeGuarantees.RunKeepsInv | mymuduo/TcpServer.cpp:67-123 | every run without such a shutdown keeps the invariant |
| LifetimeGuarantees.ConnectionLifetime | mymuduo/TcpServer.cpp:67-123 | in every run without such a shutdown a channel known to a poller is owned as above and alive, and no other known channel has its descriptor |
| LifetimeGuarantees.ActiveStaysAlive | mymuduo/EventLoop.cpp:70-78 | while a loop handles an active list, and no such shutdown happens, that list stays and every channel on it is alive |
| LifetimeGuarantees.ActiveChannelsAreAlive | mymuduo/EventLoop.cpp:70-78 | in every run without such a shutdown every channel a poll reports is alive until the loop has handled the whole report, whatever all loops and users do meanwhile |
| LifetimeGuarantees.DeadStaysDead | mymuduo/TcpServer.cpp:111-123 | a connection without references never gets one again, unless such a shutdown happens |
| LifetimeGuarantees.RemovedForGood | mymuduo/TcpConnection.cpp:152-160 | the channel of a closed connection, once removed, is never registered again, unless such a shutdown happens |
| LifetimeGuarantees.NothingLeaks | mymuduo/TcpServer.cpp:111-123 | in every run without such a shutdown, when all loops wait with nothing queued, the map is exactly the open connections, the pollers know exactly those, and any other lives only while a user holds it |
| LifetimeGuarantees.LateShutdownDangles | mymuduo/TcpConnection.cpp:126-131 | a run with such a shutdown that ends with a report of a channel no reference keeps alive |
| LifetimeGuarantees.ClosingTwiceRegisters | mymuduo/TcpConnection.cpp:216-226 | a run in which a handler closes twice in one dispatch and the channel is registered again, with nothing to watch, the connection being out of the map |
| LifetimeAccounts.DispatchesInOrder | mymuduo/EventLoop.cpp:74-77 | whatever happens meanwhile, the n-th dispatch of a report is that of its n-th channel |
| LifetimeAccounts.EachIsDispatchedOnce | mymuduo/EventLoop.cpp:70-78 | between a poll and the loop's going on to its closures each channel of the report is dispatched, once, in its order |
| LifetimeAccounts.ClosuresInOrder | mymuduo/EventLoop.cpp:104-183 | over any run what a loop had to run and what was queued for it are, in order, what it has run and what is left |
| LifetimeAccounts.BatchIsRun | mymuduo/EventLoop.cpp:172-183 | while a batch is run, what has been run of it and what is left are that batch |
| LifetimeAccounts.QueueIsRun | mymuduo/EventLoop.cpp:172-183 | a loop that has handled its report runs, before it polls again, exactly the closures queued by then, in order |
| LifetimeAccounts.ConnMoves | mymuduo/TcpConnection.cpp:126-226 | a connection is established, shut down and closed by these events and no others: for each state, exactly when it is reached and left |
| LifetimeAccounts.AcceptedIs | mymuduo/TcpServer.cpp:67-109 | an accepted connection has its descriptor and its loop, and is connected and watched for reading at once exactly on the base loop |
| LifetimeAccounts.MapMoves | mymuduo/TcpServer.cpp:67-123 | the map gains a connection by its acceptance and loses it by its removal, and in no other way |
| LifetimeAccounts.MaskMoves | mymuduo/Channel.h:50-69 | reading is watched for from the establishing to the close, and writing exactly as far as it is asked for |
| LifetimeAccounts.WritingIsWatched | mymuduo/Channel.h:58-65 | turning write interest on or off makes the kernel watch for reading and for exactly that |
| LifetimeAccounts.StopsAddUp | mymuduo/TcpConnection.cpp:126-131 | over any run the shutdowns past their test are the tests less the assignments |
| LifetimeAccounts.HeldStaysAlive | mymuduo/TcpServer.cpp:111-123 | a connection a user holds stays alive, whatever becomes of it, until the user drops it |
| TcpServers.TcpServer.constructor | mymuduo/TcpServer.cpp:15-28 | a new server is at the start of its run |
| TcpServers.TcpServer.NewConnection | mymuduo/TcpServer.cpp:67-109 | takes the machine's step; the connection enters the map under a fresh number and is established at once on the base loop, or queued for another |
| TcpServers.TcpServer.RemoveConnection | mymuduo/TcpServer.cpp:111-114 | takes the machine's step: removes at once on the base loop, queues the removal from another |
| TcpServers.TcpServer.RemoveConnectionInLoop | mymuduo/TcpServer.cpp:116-123 | erases the connection and queues its destruction, the last for its loop, never running it at once |
| TcpServers.TcpServer.Erase | mymuduo/TcpServer.cpp:120 | the first half of a queued removal is the machine's step: the connection leaves the map |
| TcpServers.TcpServer.ForwardDestruction | mymuduo/TcpServer.cpp:121-122 | the second half is the machine's step: the destruction is the last in the queue of the connection's loop |
| TcpServers.TcpServer.RunRemoval | mymuduo/TcpServer.cpp:116-123 | the base loop's run of a queued removal, not interrupted, is those two steps of the machine |
| TcpServers.TcpServer.ConnectEstablished | mymuduo/TcpConnection.cpp:142-149 | a loop's run of a queued establishment is the machine's step |
| TcpServers.TcpServer.ConnectDestroyed | mymuduo/TcpConnection.cpp:152-160 | a loop's run of a queued destruction is the machine's step |
| TcpServers.UpdateChannel | mymuduo/EpollPoller.cpp:42-61 | the branches on index and mask give the view the machine gives |
| TcpServers.RemoveChannel | mymuduo/EpollPoller.cpp:32-40 | the same for a removal |
| TcpServers.TcpServer.TestConnected | mymuduo/TcpConnection.cpp:127 | the test of a shutdown is the machine's step |
| TcpServers.TcpServer.SetDisconnecting | mymuduo/TcpConnection.cpp:128 | its assignment, not after the close, is the machine's step |
| TcpServers.TcpServer.MarkClosed | mymuduo/TcpConnection.cpp:219-220 | the connection a loop dispatches is closed and disabled: the machine's step |
| TcpServers.TcpServer.TakeQueue | mymuduo/EventLoop.cpp:172-178 | a loop that has handled its report has as its batch exactly what was queued, and an empty queue |
| TcpServers.TcpServer.RunFunctor | mymuduo/EventLoop.cpp:179-181 | whatever closure heads a batch, running it is the machine's step |
| TcpServers.TcpServer.Perform | mymuduo/TcpServer.cpp:67-123 | whatever event the machine enables, but a shutdown that assigns after the close, the server takes that step; so from a new server every run of the machine without one is one of the class |
| Bits.MaskIsMod | mymuduo/kfifo.h:7 | for a power of two size, the mask with size - 1 is the remainder by size, for every number |
| Bits.PowerOfTwoMeans | mymuduo/kfifo.h:7 | the macro holds exactly of the powers of two |
| Bits.WrappedMod | mymuduo/kfifo.cpp:98-105 | a counter reduced modulo 2^32 has the same place in the ring as the counter itself |
| Bits.WrappedDifference | mymuduo/kfifo.cpp:72-81 | the 32-bit difference of wrapped counters is their true distance |
| Kfifos.RoundUp | mymuduo/kfifo.cpp:17-28 | the loop ends; there is a result exactly up to 2^31, it is a power of two, holds the request, and is the least such except that nothing is rounded to 4 |
| Kfifos.MemCpy | mymuduo/kfifo.cpp:100-102 | copies a segment and leaves everything else |
| Kfifos.Kfifo.InitBuffer | mymuduo/kfifo.cpp:17-41 | an empty ring of the least sufficient power of two, all zero |
| Kfifos.Kfifo.ResetBuffer | mymuduo/kfifo.cpp:55-60 | the ring is empty and all zero, its size as before |
| Kfifos.Kfifo.GetReadableLen | mymuduo/kfifo.cpp:72-75 | the number of bytes accepted and not read, never above the size, however often the counters wrapped |
| Kfifos.Kfifo.GetRemainLen | mymuduo/kfifo.cpp:77-81 | the size less that number |
| Kfifos.Kfifo.IsEmpty | mymuduo/kfifo.cpp:62-65 | no byte is left to read |
| Kfifos.Kfifo.IsFull | mymuduo/kfifo.cpp:67-70 | as many are left as the ring holds |
| Kfifos.Kfifo.WriteBuffer | mymuduo/kfifo.cpp:88-107 | as many bytes as fit join the bytes accepted, in order, and no byte still to be read is touched; refused requests change nothing |
| Kfifos.Kfifo.ReadBuffer | mymuduo/kfifo.cpp:109-128 | the oldest bytes not read come out, as many as there are and as asked for, and no place of the target beyond them is touched; what was read is a prefix of what was accepted |
| Buffers.Buffer.constructor | mymuduo/Buffer.h:13-16 | an empty buffer of the size asked for |
| Buffers.Buffer.Retrieve | mymuduo/Buffer.h:33-42 | drops that many bytes from the front, or all; when all are dropped the whole space behind the prefix is free again |
| Buffers.Buffer.RetrieveAsString | mymuduo/Buffer.h:48-53 | returns the first bytes and leaves the others; when none is left the whole space is free again |
| Buffers.Buffer.RetrieveAllAsString | mymuduo/Buffer.h:45-47 | returns all bytes, leaves none, and frees the whole space |
| Buffers.Buffer.MoveToFront | mymuduo/Buffer.h:88-94 | the overlapping copy upward keeps the bytes, because it moves them strictly to the left |
| Buffers.Buffer.MakeSpace | mymuduo/Buffer.h:83-95 | keeps the bytes and makes room; grows exactly when readable bytes, new ones and prefix exceed the size, and to less than readable + 2 new + 8; otherwise compacts, and only with the read index beyond 8 |
| Buffers.Buffer.EnsureWriteableBytes | mymuduo/Buffer.h:56-60 | keeps the bytes, makes room, and grows no further than that; changes nothing if there is room |
| Buffers.Buffer.Append | mymuduo/Buffer.h:63-67 | appends; the size stays within 8 plus the larger of the first size and twice the most ever readable |
| Buffers.Buffer.ReadFd | mymuduo/Buffer.cpp:12-40 | for every legal count of the kernel exactly the bytes delivered are appended, within the same bound; an error changes nothing |
| ByteQueues.NothingLostOrReordered | mymuduo/Buffer.h:33-67 | in every trace of the abstract queue what came out, then what is left, is what was there, then what was put in |
| ByteQueues.RunRest | mymuduo/kfifo.cpp:88-128 | from any state in which ring and buffer hold the same bytes, a trace that fits makes both return and hold the same, those of the abstract queue |
| ByteQueues.RunBoth | mymuduo/kfifo.cpp:88-128 | on every trace in which each write fits the ring, ring and buffer return the same bytes and hold equally many, those of the abstract queue |

## Left out

- `Kfifo::readFd` and `Kfifo::writeFd`: as written they do not keep the queue (the first does not advance over the first segment on overflow, the second neither wraps nor advances); the buffer's scatter read is modelled instead, and the stream is proved over a queue with a stated contract.
- The mutex of `Kfifo`: each method is one sequential operation here.
- TcpConnections.TcpConnection.Send: on another thread the closure keeps a raw pointer to the bytes and to the connection; the model takes a copy and says nothing of their lifetime.
- TcpConnections.TcpConnection.Shutdown: on another thread the closure keeps a raw pointer to the connection too, and may find it gone if the thread drops the last reference after pushing it; the closures of `Lifetime` are those that hold a reference.
- TcpConnections.TcpConnection.ConnectEstablished: leaves the tie to `Lifetime`, where a dispatch holds a reference.
- TcpConnections.TcpConnection.ConnectDestroyed: leaves the removal from the poller to `Pollers` and `Lifetime`.
- TimerQueues.TimerQueue.AddTimer: is the call with nothing between its parts; `Submit` and `ReadId` are the parts.
- Destruction of the server, the loops and the timer queue, and a second call of `loop()`.
- 64-bit overflow of timestamps, `size_t` overflow, overflow of the connection number, the rounding of `double`, `Timestamp::swap`.
- Resource failures of `epoll_ctl`, `timerfd_settime` and `new`.
- A connection between its construction and its entry into the map; the high-water-mark and write-complete callbacks, which only queue tasks.
- Sockets, acceptor, addresses, logging, thread start-up, the choice of the next loop (an input of the model), the growth of the poller's event array.
- Streams.StepKeepsInv: is stated for steps no close overtakes, and `ShutdownRaceReopens` shows why; and for an unbounded queue that retrieves, which `RunIsIdeal` extends to any that retrieves and has room.
- HalfClose.ShutdownWaits: is stated for the shutdown that finds the connection connected and without a fault, up to the close.
- TcpServers.TcpServer.Perform: takes no shutdown that assigns after the close; what that leads to is in `LateShutdownDangles`.
- TcpServers.TcpServer: models the queues of all loops as one field, and their phases only in the run.
