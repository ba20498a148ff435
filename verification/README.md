# A model of the message bus, with proofs

The bus connects senders of typed messages to receivers.  A local receiver is a small concurrent protocol: senders
reserve capacity and wait for notifications, one poller takes requests off a channel and batches or dispatches them,
handler tasks run and emit responses, and an event loop releases capacity, wakes senders and hands each response to
its waiter.  Above it sits the bus with its routing index, its broadcast and its flush loop; beside it the TCP relay
with its packet format, framing, reader and reconnecting writer.

How the project is organised:

- `Machine` defines the local receiver as a transition system: one machine for the four receiver kinds, one act for
  each atomic step of a sender, the poller, a handler task or the event loop.  A run is a sequence of acts, so a
  statement about all runs is a statement about all interleavings.
- `Formation`, `Ledger`, `Exclusion` and `Invariant` hold the inductive invariant: how batches are formed, where each
  request is, who may run, who is parked.
- `Conservation`, `Answers`, `ControlReports`, `Barrier`, `FlushReports`, `FlushFlag`, `FlushCallers`, `Progress`, `Wakeups`,
  `Stranding`, `Meaning`, `Pairing`, `Collision` and `Sequential` prove the properties of runs.
- `Receiver` holds the same protocol as objects with mutable fields and the bodies of the program: the reserve loop,
  the four pollers, the handler tasks, the batch-result loop and the event loop.  Between any two shared accesses a
  body lets the others take any steps; it is proved that whatever it does is a run of `Machine`, so the properties of
  runs hold at every point of every body.
- `Routing`, `Broadcast` and `FlushAll` are the bus; `TypeTags` is the tag printer that routing relies on.
- `Framing`, `Proto`, `TcpWriter` and `Delivery` are the remote path: frames, packets, the writer, and all of them
  composed with the reader.  `PlainPacking` writes down one packing and one run that meet every assumption made there.

Library primitives have small specifications: the request channel is a FIFO that refuses sends after close and still
drains; the semaphore is a counter; `notify_one` wakes the longest-waiting registered sender or stores at most one
notification; the waiter slab is a map with vacant keys below the top bit.  Handlers are arbitrary: every outcome a
handler may return is a possible step.

## What turned out false, and the exact condition

- Flush is a barrier for the unordered kinds exactly when the permit count fits 32 bits (`acquire_many` is asked for
  `max_parallel as u32`), always for the synchronized kind, never for the synchronized batched kind
  (`Barrier.FlushBarrier`).
- Only under the same condition is a flush, seen from outside, one drain of everything accepted before it
  (`Barrier.FlushDrainsExactly`).
- Flushed implies answered exactly for the synchronized kind, and where there is no permit to run anything
  (`Barrier.FlushAnswersExactly`).
- `sync` runs alone exactly when the permits can be counted in 32 bits, or the kind is synchronized
  (`Barrier.SyncAloneExactly`).
- Returning from `flush` means that what was accepted before the call is handled exactly when nobody else flushes at the
  same time and Flush is a barrier (`FlushCallers.FlushReturnsExactly`): callers share one notification cell, and one can
  be woken by another's report.
- While a receiver runs, a lowered need-flush flag never means that nothing is left to flush, whatever the configuration
  (`FlushFlag.FlagNeverBelievable`); what it does mean is `FlushFlag.LoweredFlag`.  Of a receiver that has halted it can
  be believed exactly when requests are dispatched one by one and there is a permit (`FlushFlag.FlagTruthfulExactly`).
- `flush_all` therefore relies on flushes that nothing interrupts: a message sent to a receiver between its drain and the
  lowering of its flag stays behind with the flag down (`FlushAll.InterruptedFlush`).
- Backpressure with one sender is free of deadlock exactly when the limit admits a whole batch and there is a permit
  (`Wakeups.Backpressure`).
- Any number of senders is safe from stranding exactly when requests are dispatched one by one, the limit admits one
  and there is a permit (`Stranding.StrandedExactly`): with batches of two or more, two senders can share the one
  stored notification, and one is left parked below the limit until somebody flushes
  (`Stranding.BatchedSenderStranded`).
- A dropped permit frees a slot and wakes nobody (`Stranding.DroppedPermitStrands`): once permits may be dropped, no
  configuration at all is safe from stranding (`Stranding.NeverStrandFree`).
- Results are always the waiters' own exactly when no id is posted, top bit aside, that is also asked for as a key
  (`Collision.PairsExactly`); in a single run, exactly when no posted message's response met a live waiter key
  (`Pairing.ResultsAreOwn`).  The response path does not test the request bit (`Collision.PostedTakesWaiter`).
- The routing index agrees with a scan exactly for the query shapes that have an index entry (`Routing.RoutingAgrees`).
- `flush_all` always settles exactly for send graphs of at most 31 ranks (`FlushAll.FuseFits`).
- Frames arrive exactly once exactly when no failed write delivered its whole frame (`Delivery.ExactlyOnce`); without
  that they still arrive at least once and in order (`Delivery.NoneLost`).
- Behind stray bytes a frame is found exactly when their number is a multiple of four (`Framing.StrayBytes`).
- Once names may hold brackets, a type shares its tag with another exactly when the tag looks generic
  (`TypeTags.SharedExactly`).
- Reading a packet panics on a missing type tag exactly as stated by `Proto.PanicsExactly`.

## Model

| member | source | states |
|---|---|---|
| `Conservation.CounterExact` | src/receiver.rs:496-545 | In every reachable state the capacity counter is the sum of unfused permits, requests queued, held, buffered, inside handler tasks and in unprocessed responses, refused sends and requests dropped with the last buffer; it is never negative. |
| `Conservation.RequestsConserved` | src/receiver.rs:854-906 | In every reachable state each accepted request is in exactly one place: channel, poller, buffer, handler task, event channel, event loop, answered, or dropped with the last buffer. |
| `Conservation.NeverOverLimit` | src/receiver.rs:496-519 | Over every run without `force_send` the counter stays between 0 and the limit; a limit of 2^63 or more, read as a signed number, admits nothing. |
| `Machine.CastsMean` | src/receiver.rs:500 | The casts in figures: the limit is read as the signed 64-bit number congruent to it, Flush and Sync ask for the low 32 bits of the permit count, and a batch has `max(1, batch_size)` requests. |
| `Conservation.GracefulClose` | src/receiver.rs:218-224 | When the event loop announces `closed`, every accepted request has had exactly one response processed, except the last ones accepted, fewer than a batch, that were still buffered; unbatched kinds drop none. |
| `Answers.AnsweredByPosition` | src/receivers/mod.rs:26-45 | In every run, once the handler of the batch holding a request at position k has returned, the response to it that is sent or about to be is exactly this one: the error if the handler failed, the k-th reply if there is one, NoResponse otherwise. |
| `Answers.DeliveredWasSent` | src/receiver.rs:257 | Every response in the loop's hand, answered or delivered to a waiter is one that was sent, with the same answer. |
| `Answers.OneReportEach` | src/receivers/mod.rs:46 | In every run, for every error, the BatchError events sent or still with a task are as many as batches failed with it; unbatched kinds send none. |
| `ControlReports.ReadyAndSynced` | src/receivers/buffer_unordered_batched/mod.rs:82-114 | For every kind, in every reachable state: as many Ready events have been sent as Inits were received, and as many Synchronized events, with one in the making, as Syncs were received. |
| `Barrier.BatchesFormed` | src/receivers/buffer_unordered_batched/mod.rs:57-103 | In every reachable state the two buffers pair up; dispatched batches, batch in hand, buffer and channel are the accepted requests in order, and once the poller has exited so are dispatched batches and dropped buffer; full batches have exactly `max(1, batch_size)` requests and the others were cut by a Flush and are shorter and not empty. |
| `Barrier.FlushBarrier` | src/receivers/buffer_unordered/mod.rs:69-72 | Over all runs, a Flush reported as done implies that everything received is handled and nothing is buffered, if and only if the kind is unordered with at most 2^32-1 permits, or synchronized. |
| `Barrier.SafeFlush` | src/receivers/buffer_unordered_batched/mod.rs:88-103 | The step that emits Flushed leaves no request unhandled and the buffers empty, whatever the interleaving, when the permits can be counted in 32 bits. |
| `Barrier.SynchronizedBatchedFlush` | src/receivers/synchronize_batched/mod.rs:80-92 | The synchronized batched poller emits Flushed while the batch it has just spawned still waits: no barrier. |
| `Barrier.TruncatedFlush` | src/receivers/buffer_unordered/mod.rs:69-72 | With 2^32 permits or more a Flush asks for fewer permits than there are and overtakes a running handler. |
| `Barrier.FlushedBeforeAnswered` | src/receivers/buffer_unordered_batched/async.rs:31-34 | Whatever the unordered kind with a permit: a run in which Flushed is emitted while the response of a handled request is still to be sent. |
| `Barrier.FlushAnswersExactly` | src/receivers/buffer_unordered_batched/mod.rs:101-102 | Over all runs Flushed implies that the response to every request received has been emitted, if and only if the kind is synchronized, or unordered without a permit. |
| `Barrier.FlushDrainsExactly` | src/receiver.rs:1079-1088 | Between sending a Flush and its report the receiver handles everything it had accepted before, over all runs, if and only if Flush is a barrier for it. |
| `FlushReports.ReportsInOrder` | src/receivers/buffer_unordered_batched/mod.rs:88-103 | In every reachable state the Flushed events sent, and one in the making, are as many as the Flushes received; where Flush is a barrier, everything accepted before a Flush already reported has been handled. |
| `FlushFlag.FlagLiesAnyway` | src/receiver.rs:243-246 | For every configuration: a run into an open state with the flag down, the only sender idle, and an accepted request not even received. |
| `FlushFlag.FlagNeverBelievable` | src/lib.rs:173-174 | For no configuration does a lowered flag, with no send half done, imply in every reachable open state that every accepted request has been handled. |
| `FlushFlag.LoweredFlag` | src/receiver.rs:243-246 | In every run, with the flag down and no send half done: the loop has taken a Flushed, everything accepted was accepted before that step, and, where Flush is a barrier, what has not been handled was accepted behind the very Flush that this Flushed reports. |
| `FlushFlag.RaisedFlag` | src/receiver.rs:876 | The flag is up only once a message has been handed over, taken by the channel or refused. |
| `FlushFlag.FlushFlagMayLie` | src/receiver.rs:243-246 | For every kind that buffers requests or has no permit: a run into an open, halted state in which a request is unanswered and the flag is down, since Flushed lowered it after the message had been sent. |
| `FlushFlag.FlagTruthfulExactly` | src/receiver.rs:243-246 | Of receivers that have halted: every reachable open state that cannot move and has the flag down has nothing unanswered, if and only if requests are dispatched one by one and, for the unordered kinds, there is a permit. |
| `FlushCallers.FlushReturnsExactly` | src/receiver.rs:1079-1087 | Over all runs of m callers of `flush` on one receiver, a return means that everything accepted before the call has been handled, if and only if nobody calls, or one caller does and Flush is a barrier. |
| `FlushCallers.WokenByAnother` | src/receiver.rs:1080-1083 | For every configuration and two or more callers: a run in which one returns on the report of another's Flush, before its own, while a request accepted before its call has not been received. |
| `FlushCallers.SoloReturn` | src/receiver.rs:1079-1087 | With one caller at a time the notification that wakes it is the report of its own Flush. |
| `FlushCallers.NotifiedFirst` | src/receiver.rs:243-246 | A Flushed wakes the caller that has waited longest and nobody else, or stores one notification. |
| `Barrier.HandlersExclusive` | src/receivers/buffer_unordered/mod.rs:50-83 | Never more handlers run than there are permits (one, for the synchronized kinds); none runs while `sync` does, if the permits of an unordered kind can be counted in 32 bits. |
| `Barrier.SyncAloneExactly` | src/receivers/buffer_unordered/mod.rs:74-83 | Over all runs no handler runs while `sync` does, if and only if the permits can be counted in 32 bits or the kind is synchronized. |
| `Barrier.TruncatedSync` | src/receivers/buffer_unordered/mod.rs:75 | With 2^32 permits or more, a run in which `sync` starts beside a running handler. |
| `Progress.StuckAtRest` | src/receivers/buffer_unordered_batched/mod.rs:60-118 | If handlers return and there is a permit, a reachable state in which neither poller, handler tasks nor event loop can move has nothing left to do: channel drained, everything emitted and processed, and after Close everybody has exited. |
| `Progress.CloseCompletes` | src/receivers/buffer_unordered_batched/mod.rs:85-87 | Once a Close was accepted, a state that cannot move further has announced `closed`. |
| `Progress.StepDecreases` | src/receivers/buffer_unordered_batched/mod.rs:60-118 | Every step of the poller, a handler task or the event loop lowers a measure of the outstanding work. |
| `Progress.InternalRunsEnd` | src/receiver.rs:218-281 | Left alone, poller, handler tasks and event loop halt within a number of steps fixed by the state, however they are scheduled. |
| `Progress.MaximalRun` | src/receiver.rs:218-281 | From every reachable state they have a run to a halt. |
| `Wakeups.Backpressure` | src/receiver.rs:838-846 | For one sender, an open receiver never has it parked with nothing able to move, if and only if the limit admits a whole batch and, for the unordered kinds, there is a permit. |
| `Wakeups.NoDeadlock` | src/receiver.rs:838-846 | The same as a statement on each reachable state: a lone parked sender of an adequate open receiver always finds some poller, handler or event-loop step enabled. |
| `Wakeups.WokenInTime` | src/receiver.rs:248-255 | Along any run of poller, handler and event-loop steps the lone sender is parked only for fewer steps than the outstanding work, and only while a further step exists. |
| `Wakeups.Deadlocks` | src/receiver.rs:496-519 | For every inadequate configuration there is a run after which the lone sender is parked and nothing can ever wake it. |
| `Wakeups.NoStrandedSender` | src/receiver.rs:838-846 | Any kind, any number of senders, no permit dropped: a parked sender of an open receiver implies an accepted unanswered request, an owed notification, or another sender at work. |
| `Wakeups.SomebodyMoves` | src/receiver.rs:838-846 | If moreover requests are dispatched one by one, a step is enabled: of the receiver, or of one of the active senders. |
| `Stranding.StrandedExactly` | src/receiver.rs:838-846 | Over all runs of any number of senders without a dropped permit, a parked sender of an open receiver always leaves somebody able to move, if and only if requests are dispatched one by one, the limit admits one and, for the unordered kinds, there is a permit. |
| `Stranding.BatchedSenderStranded` | src/receiver.rs:248-255 | For every batch size from 2 on and every limit it fits: a run into an open state with one slot taken, a partial batch, nothing able to move and a sender parked. |
| `Stranding.DroppedPermitStrands` | src/receiver.rs:720-724 | For every kind and every limit: one sender more than there are slots, all other permits dropped, and the receiver is open with its counter at zero, nothing able to move and that sender parked. |
| `Stranding.NeverStrandFree` | src/receiver.rs:720-724 | Over runs that may drop permits no configuration is free of stranding; StrandedExactly is the case of runs that keep them. |
| `Meaning.AnswersMean` | src/receivers/buffer_unordered_batched/mod.rs:67-103 | For a pointwise handler a settled receiver of any kind has answered every accepted request once, and with the handler's reply to its message. |
| `Meaning.EachAnswered` | src/receivers/buffer_unordered_batched/mod.rs:67-103 | Right responses with the ids of all requests are, one for each request, the handler's reply to its message. |
| `Meaning.FlushSettles` | src/receivers/buffer_unordered_batched/mod.rs:88-103 | An open receiver that cannot move, and, if batched, was flushed last, has nothing unanswered. |
| `Meaning.BatchingPreservesMeaning` | src/receivers/buffer_unordered_batched/mod.rs:67-103 | Any two receivers of any kinds, limits and batch sizes that accepted the same requests in any order, with Flushes anywhere and one at the end of each batched one, have produced the same multiset of id and reply over any interleavings. |
| `Pairing.OneResultEach` | src/receiver.rs:296-315 | Over every run a waiter gets at most one result, and leaves the table exactly with it. |
| `Pairing.ResultsAreOwn` | src/receiver.rs:296-297 | Every result delivered is a response processed by the loop; all of them answer the waiter's own request if and only if no posted message's response was delivered while its id, top bit aside, was a live key. |
| `Pairing.ResultsArrive` | src/lib.rs:566-575 | Without such a collision every processed response to a request has reached the waiter of that request. |
| `Pairing.WireIds` | src/lib.rs:572 | Every posted message goes out under its own id, every request under its key with the top bit set. |
| `Pairing.ApartKeysPair` | src/receiver.rs:296-297 | Over every run in which no posted id equals, top bit aside, a key asked for, every result answers the waiter's own request and every processed response to a request has reached its waiter. |
| `Collision.PairsExactly` | src/receiver.rs:296-297 | For all sets of ids posted and of keys asked for: all runs that keep to them give only own results, if and only if no id is, top bit aside, also a key, or no handler can run. |
| `Collision.PostedTakesWaiter` | src/receiver.rs:296-297 | For every kind that can run a handler and every key: a run in which the response of a message posted with that id goes to the waiter under the key, who has not even sent his request. |
| `Sequential.SequentialRefinement` | src/receivers/synchronized/mod.rs:43-70 | Whenever the synchronized poller is between items, the events emitted so far, in order, and the handler's state are those of one sequential pass over the items received. |
| `Receiver.BlockedPoller` | src/receivers/buffer_unordered_batched/mod.rs:60-114 | The await conditions listed for the poller are exactly the states in which it has no step. |
| `Receiver.LocalReceiver.TryReserve` | src/receiver.rs:496-519 | With arbitrary interference between load and exchange: success holds a permit with the counter at most at the limit, failure saw a full counter, and it goes on only after losing a race each round; all of it a run of the machine. |
| `Receiver.LocalReceiver.CompareExchange` | src/receiver.rs:501-512 | Succeeds exactly if the counter still has the loaded value, and then raises it by one. |
| `Receiver.LocalReceiver.Notified` | src/receiver.rs:843 | Returns at once on a stored notification, which it consumes, and otherwise parks behind the others until notified. |
| `Receiver.LocalReceiver.Registered` | src/receiver.rs:843 | The stored notification is consumed if there is one; otherwise the sender joins the line behind the others. |
| `Receiver.LocalReceiver.Reserve` | src/receiver.rs:838-846 | Ends with a permit, parked, or after having tried as often as it was let. |
| `Receiver.LocalReceiver.Send` | src/receiver.rs:854-879 | The channel gets the message or refuses it, the permit is fused either way, and with the others at work in between the flush flag goes up. |
| `Receiver.LocalReceiver.HandOver` | src/receiver.rs:862-875 | The channel takes the message if it is open and refuses it otherwise; the slot stays counted either way. |
| `Receiver.LocalReceiver.RaiseFlag` | src/receiver.rs:876 | Raises the flag, as a step of its own. |
| `Receiver.LocalReceiver.ForceSend` | src/receiver.rs:882-906 | Takes a slot whatever the limit, then sends. |
| `Receiver.LocalReceiver.DropPermit` | src/receiver.rs:720-724 | Frees the slot and touches neither the stored notification nor the parked senders. |
| `Receiver.LocalReceiver.SendMessage` | src/lib.rs:452-456 | What `send_ext` does on one receiver of its list: reserve, then send, as a run of one sender. |
| `Receiver.LocalReceiver.TrySendMessage` | src/lib.rs:521-527 | One attempt to reserve: either the message is sent, or the receiver was full and is left as it was. |
| `Receiver.LocalReceiver.SendAction` | src/receivers/buffer_unordered_batched/async.rs:104-112 | An action joins the end of the channel, or is refused by a closed one. |
| `Receiver.LocalReceiver.Ask` | src/lib.rs:558-579 | Registers a waiter under a vacant key before it reserves and sends under that key with the top bit set. |
| `Receiver.LocalReceiver.AddWaiter` | src/receiver.rs:286-294 | Registers the waiter under a vacant key before anything is sent; the request's id will be that key plus 2^63. |
| `Receiver.LocalReceiver.PollBuffered` | src/receivers/buffer_unordered_batched/mod.rs:42-119 | The poller body handles as many items as it is let, or ends where it has no step; every interleaving with the others is a run of the machine. |
| `Receiver.LocalReceiver.BufferRequest` | src/receivers/buffer_unordered_batched/mod.rs:67-81 | A request enters both buffers; a full buffer goes to a handler task unless there is no permit. |
| `Receiver.LocalReceiver.FlushBuffer` | src/receivers/buffer_unordered_batched/mod.rs:88-103 | A Flush sends off the buffer, then waits for all permits. |
| `Receiver.LocalReceiver.AwaitDrained` | src/receivers/buffer_unordered_batched/mod.rs:101-102 | When Flushed is sent, every request received has been handled and the buffers are empty, if the permits can be counted in 32 bits; otherwise it is still waiting for permits. |
| `Receiver.LocalReceiver.StartSync` | src/receivers/buffer_unordered_batched/mod.rs:105-109 | When `sync` starts no handler runs; otherwise permits or the mutex are still missing. |
| `Receiver.LocalReceiver.CloseChannel` | src/receivers/buffer_unordered_batched/mod.rs:85-87 | Close closes the channel, as one step of the run. |
| `Receiver.LocalReceiver.Leave` | src/receivers/buffer_unordered_batched/mod.rs:60 | On a closed and drained channel the poller ends and drops its buffers. |
| `Receiver.LocalReceiver.PollUnbuffered` | src/receivers/buffer_unordered/mod.rs:36-88 | The unbatched poller body, to the same contract. |
| `Receiver.LocalReceiver.SpawnBatch` | src/receivers/buffer_unordered/mod.rs:54-64 | A batch in hand goes to a handler task as soon as there is a permit, and waits only if there is none. |
| `Receiver.LocalReceiver.PollBatchSynchronized` | src/receivers/synchronize_batched/mod.rs:38-104 | The synchronized batched poller body, to the same contract. |
| `Receiver.LocalReceiver.FlushUnawaited` | src/receivers/synchronize_batched/mod.rs:80-92 | Sends off the buffer and emits Flushed in the same step. |
| `Receiver.LocalReceiver.PollSynchronized` | src/receivers/synchronized/mod.rs:30-71 | The synchronized poller body, to the same contract. |
| `Receiver.LocalReceiver.SpawnAndJoin` | src/receivers/synchronized/mod.rs:45-51 | Spawns one handler task and does not go on before it has emitted everything. |
| `Receiver.LocalReceiver.Lock` | src/receivers/synchronize_batched/async.rs:27 | A handler of a synchronized kind starts only when the item's mutex is free. |
| `Receiver.LocalReceiver.Handled` | src/receivers/buffer_unordered_batched/async.rs:31-32 | The handler runs with the others at work, and its return is one step after which all its responses are still to be sent. |
| `Receiver.LocalReceiver.DropTaskPermit` | src/receivers/buffer_unordered_batched/async.rs:32 | The permit is released before any response is sent. |
| `Receiver.LocalReceiver.ProcessBatchResult` | src/receivers/mod.rs:22-50 | Replies go to the ids by position, NoResponse to the ids left over; an error goes to every id, and once more to the loop; all of it is sent when the method ends, and nothing else is left to send. |
| `Receiver.LocalReceiver.AnswerBatch` | src/receivers/mod.rs:27-38 | The loop over ids and replies side by side. |
| `Receiver.LocalReceiver.FailBatch` | src/receivers/mod.rs:40-47 | The loop that sends the error to every id, and the report behind it. |
| `Receiver.LocalReceiver.RunRequest` | src/receivers/buffer_unordered/async.rs:31-37 | Handle, release the permit, send the one response: the reply, or the error. |
| `Receiver.LocalReceiver.RunBatch` | src/receivers/buffer_unordered_batched/async.rs:30-35 | Handle, release the permit, send each id its reply, NoResponse or the error, and a failed batch's error once more. |
| `Receiver.LocalReceiver.PollEvents` | src/receiver.rs:218-281 | The event loop body handles as many events as it is let, or all there are, as a run of the machine. |
| `Receiver.LocalReceiver.TakeEvent` | src/receiver.rs:226-249 | A response lowers the counter by one; no other event does; Flushed clears the flag. |
| `Receiver.LocalReceiver.NotifyOne` | src/receiver.rs:255 | Wakes the sender parked longest, or stores one notification. |
| `Receiver.LocalReceiver.Respond` | src/receiver.rs:296-315 | Takes whatever waiter is live under the id without its top bit. |
| `Routing.MessageTable.AddAny` | crates/remote/src/relays/mod.rs:24-29 | Adds one entry to the list under the tag. |
| `Routing.MessageTable.From` | crates/remote/src/relays/mod.rs:81-89 | The table of a list of types. |
| `Routing.TableHolds` | crates/remote/src/relays/mod.rs:71-78 | The table lists exactly the types it was built from. |
| `Routing.TableAccepts` | crates/remote/src/relays/mod.rs:51-69 | A relay accepts a message, or a request with the given response and error tags, if and only if a matching type was listed. |
| `Routing.BuildLookup` | src/lib.rs:82-108 | The nested loops file each receiver under exactly the query shapes of the types it lists. |
| `Routing.BusNew` | src/lib.rs:82-121 | The index lists each receiver under each of its shapes exactly once. |
| `Routing.SelectScans` | src/lib.rs:801-820 | For every query shape in use, selection through the index returns without repetition exactly the receivers that accept and satisfy the send option. |
| `Routing.AcceptsMean` | src/receiver.rs:368-386 | A local receiver accepts its own message tag and, for requests, its response and error tags where they are asked for; a relay accepts what its table lists. |
| `Routing.OptionsMean` | src/lib.rs:814-819 | Among the accepting receivers Except(x) selects all others than x, Direct(x) x alone if it accepts, every other option all of them; never one twice. |
| `Routing.RoutingAgrees` | src/lib.rs:801-820 | Index and scan agree for all sets of receivers if and only if the query is a request query, or a message query naming neither response nor error. |
| `Routing.DirectLookup` | src/lib.rs:387 | Sends that use the index without the accept filter reach exactly the receivers that list the message tag at all. |
| `Broadcast.Bus.TryReserve` | src/lib.rs:356-368 | A slot is taken at every receiver of the list if every counter is below its limit; otherwise every counter is back to its old value. |
| `Broadcast.Bus.DropPermits` | src/receiver.rs:539-545 | Dropping the permits gathered so far frees exactly their slots. |
| `Broadcast.Bus.TrySend` | src/lib.rs:375-417 | Full, with nothing delivered and every counter as before, if and only if some counter had reached its limit; else every receiver has one slot more and one copy under the new id; counters within their limits stay within them. |
| `Broadcast.ExactlyOneCopy` | src/lib.rs:387-409 | Under a fresh id each open receiver of the tag gets exactly one copy of the message, all others nothing; counters rise by one and flush flags go up exactly at the receivers of the tag. |
| `FlushAll.Bus.FlushAll` | src/lib.rs:164-194 | The loop leaves nothing pending if it breaks, and breaks within one sweep more than the send graph has ranks, if that fits the fuse of 32. |
| `FlushAll.Equilibrium` | src/lib.rs:164-194 | For every acyclic send graph, every load and every order of every sweep: breaking implies nothing is pending, and with ranks + 1 within the fuse the loop breaks in at most ranks + 1 sweeps. |
| `FlushAll.SweepCalm` | src/lib.rs:170-180 | Each sweep, in any order, settles at least one more rank of the send graph. |
| `FlushAll.DrainMoves` | src/lib.rs:176 | A drain empties its receiver and adds to every other exactly what the handlers send. |
| `FlushAll.IdleIsEmpty` | src/lib.rs:182-185 | A sweep that flushes nothing proves that nothing is pending. |
| `FlushAll.InterruptedFlush` | src/lib.rs:173-178 | Whatever the send graph: if a handler elsewhere sends to a receiver between the work of its flush and the lowering of its flag, it is left with a message pending and the flag down. |
| `FlushAll.FuseFits` | src/lib.rs:165 | The loop always settles send graphs of D ranks if and only if D + 1 is at most 32; a chain swept backwards shows the rest fail. |
| `TypeTags.TypeTagPart` | crates/derive/src/lib.rs:82-119 | The loop over the generics yields one hole for each type parameter and none for lifetimes; filled with the tags of as many arguments the template is the tag of the type; const parameters are not implemented. |
| `TypeTags.TemplateFills` | crates/derive/src/lib.rs:125-129 | Filling the holes gives the name with its arguments' tags in angle brackets. |
| `TypeTags.ParseTag` | crates/derive/src/lib.rs:82-119 | A parser recovers every type expression over plain names from its printed tag. |
| `TypeTags.TagsUnambiguous` | crates/derive/src/lib.rs:82-119 | Different type expressions over plain names have different tags. |
| `TypeTags.SharedExactly` | crates/derive/src/lib.rs:71-72 | Over names that may hold brackets, another type expression has the same tag if and only if the tag ends in '>' and has a '<' before that. |
| `Framing.BuildFrame` | crates/remote/src/relays/tcp/mod.rs:191-200 | Whatever the reused buffer held, it ends up as exactly one frame. |
| `Framing.HeaderLayout` | crates/remote/src/relays/tcp/mod.rs:197-200 | The header byte by byte: the marker, version 1, content type 0 and the size, highest byte first. |
| `Framing.Incoming.ReadFrames` | crates/remote/src/relays/tcp/mod.rs:273-305 | The reader loop over a finished stream, with short reads sending it back to the top, computes the decoding of the stream. |
| `Framing.Incoming.ReadFrame` | crates/remote/src/relays/tcp/mod.rs:273-305 | One round of the loop: the end of the stream, a word skipped or a short read, one whole body, or an unknown content type. |
| `Framing.NumBe` | crates/remote/src/relays/tcp/mod.rs:197-200 | Big-endian numbers are read back as written. |
| `Framing.DecodePrefix` | crates/remote/src/relays/tcp/mod.rs:273-305 | For any frames and four-byte non-frame words such as PING, decoding any byte prefix yields, in order, exactly the bodies whose frames are complete, and never meets an unknown content type. |
| `Framing.DecodeAll` | crates/remote/src/relays/tcp/mod.rs:191-202 | Decoding an encoded stream gives the bodies back in order. |
| `Framing.StrayBytes` | crates/remote/src/relays/tcp/mod.rs:285-288 | Behind stray bytes in which the reader does not see a marker itself, a frame is found if and only if their number is a multiple of four, and is then all that is found. |
| `Proto.Serialize` | crates/remote/src/proto.rs:161-284 | The flag-setting code builds the packet described field by field for each item, and panics or fails on no other items. |
| `Proto.Serializable` | crates/remote/src/proto.rs:161-284 | An item has a packet if and only if it is no Stats item and, where it carries a message, the message is shared, the codec known and its encoding succeeds. |
| `Proto.PackedKind` | crates/remote/src/proto.rs:171-272 | Which kind each item travels under; a failed initialization travels as Ready. |
| `Proto.FlagsMean` | crates/remote/src/proto.rs:181-272 | The flags of a packet say exactly what it holds: a tag, a body, an error, an argument; only errors change the body type. |
| `Proto.FieldsMean` | crates/remote/src/proto.rs:274-283 | What stands in the tag, the body and the argument of each item's packet. |
| `Proto.RoundTrip` | crates/remote/src/proto.rs:294-386 | With a codec that inverts itself on registered types, reading back a serialized item gives its normal form: errors as their text under GenericError, Init with id 0, InitFailed as Ready, an unregistered type as an error, everything else unchanged; it never panics. |
| `Proto.TextTells` | crates/remote/src/proto.rs:211-217 | Two errors look alike on the other side if and only if they are the same, or both are shown as Other(...) with the same text inside. |
| `Proto.SurvivesExactly` | crates/remote/src/proto.rs:294-386 | An item is serialized and read back as itself if and only if it is no Stats item, carries no error, is no Init with an id other than 0, and any message in it is shared, encodable in a known codec and of a registered type. |
| `Proto.SecondHop` | crates/remote/src/proto.rs:304-313 | What has arrived changes on a second hop if and only if it carries an error. |
| `Proto.PanicsExactly` | crates/remote/src/proto.rs:294-386 | Of all packets, well formed or not, exactly those make the reader panic that lack a type tag where one is unwrapped; the unreachable arm is never reached. |
| `Proto.ReadAsResponse` | crates/remote/src/proto.rs:338-347 | Of all packets exactly those are read as a response that are marked as one, announce an argument and carry an error or a tagged body in a known codec; the result is that error, or what the body decodes to. |
| `TcpWriter.Writer.WriteNext` | crates/remote/src/relays/tcp/mod.rs:174-210 | One round of the inner loop keeps: written items, the item in hand and the queue are what was enqueued, in order; a failed item is the next one tried. |
| `TcpWriter.Writer.Round` | crates/remote/src/relays/tcp/mod.rs:174-210 | Others enqueue, then the inner loop goes round; it waits only once everything that was to come has been taken. |
| `TcpWriter.Writer.Write` | crates/remote/src/relays/tcp/mod.rs:188-209 | A written item's frame is on the connection; a failed one is back in the slot with a part of its frame on the connection; an item without a packet stops the writer. |
| `TcpWriter.Writer.Serve` | crates/remote/src/relays/tcp/mod.rs:163-213 | The same over one connection, to its break, its close or the end of the queue. |
| `TcpWriter.Writer.Run` | crates/remote/src/relays/tcp/mod.rs:160-213 | The same over all connections, while others go on enqueuing; with more steady connections than requests to close, everything enqueued before or meanwhile is written. |
| `TcpWriter.WroteKeeps` | crates/remote/src/relays/tcp/mod.rs:188-202 | Writing an item keeps the conservation and retry invariants. |
| `TcpWriter.BrokeKeeps` | crates/remote/src/relays/tcp/mod.rs:202-209 | A failed write, at any byte, keeps them. |
| `TcpWriter.CloseKeeps` | crates/remote/src/relays/tcp/mod.rs:178-184 | So does a request to close, which uses up one queue entry and no item. |
| `Delivery.ReadsInOrder` | crates/remote/src/relays/tcp/mod.rs:273-305 | However much of a connection's bytes the peer reads, it decodes the bodies of the first items tried on it, in order. |
| `Delivery.DecodeStream` | crates/remote/src/relays/tcp/mod.rs:273-305 | Read to its end, a connection yields exactly the items whose frames went through whole. |
| `Delivery.ExactlyOnce` | crates/remote/src/relays/tcp/mod.rs:153-216 | The bodies decoded over all connections are those of the items written, exactly once and in order, if and only if every failed write delivered a proper prefix of its frame. |
| `Delivery.NoneLost` | crates/remote/src/relays/tcp/mod.rs:202-209 | With no assumption on failed writes every item written arrives at least once and in order, repeated only on the spot. |
| `Delivery.RepeatedItem` | crates/remote/src/relays/tcp/mod.rs:202-209 | A write that fails after its last byte makes the peer read an item twice. |
| `Delivery.EndToEnd` | crates/remote/src/relays/tcp/mod.rs:270-329 | Writer, framing, reader and packets composed: item by item the peer reads the normal form of exactly the items written. |
| `PlainPacking.EndToEndApplies` | crates/remote/src/relays/tcp/mod.rs:188-209 | A packing and a run with a failed and repeated write that meet everything EndToEnd asks for; the peer reads the request that was written. |

## Left out

- Receiver.LocalReceiver.Reserve: ends after a given number of rounds, since termination of the loop depends on the other senders; what holds of a sender that waits is the subject of `Wakeups` and `Stranding`.
- Receiver.LocalReceiver.SendMessage: one receiver; `send_ext` does this for each receiver of its list in turn.
- Meaning.BatchingPreservesMeaning: stated for handlers that answer each message on its own and return as many replies as messages; other handlers may see batch boundaries.
- Sequential.SequentialRefinement: the item's mutex is taken to be used by this one subscription only.
- FlushAll.Equilibrium: each receiver's flush is one atomic drain and nobody else sends meanwhile; `Barrier.FlushDrainsExactly` and `FlushCallers.FlushReturnsExactly` say when a flush is a drain, `FlushAll.InterruptedFlush` and `FlushFlag.LoweredFlag` what is lost when it is interrupted.
- FlushAll.Bus.FlushAll: the same.
- FlushAll.IdleIsEmpty: rests on the flag being up wherever something is pending, which an interrupted flush does not keep.
- Barrier.FlushDrainsExactly: the report is that of a Flush at or behind the caller's own; which report wakes which caller is the subject of `FlushCallers`.
- FlushCallers.FlushReturnsExactly: a `flush` that meets a closed channel returns at once and promises nothing; callers that give up while waiting are not modelled.
- Delivery.ExactlyOnce: for bodies shorter than 2^64 bytes, the range of the size field, as for the other statements on frames.
- Broadcast.Bus.TrySend: one caller at a time; concurrent senders at a single receiver are covered by `Receiver`.
- Framing.Incoming.ReadFrames: the stream is finite and ends; a frame size that cannot be allocated is not modelled.
- Proto.RoundTrip: CBOR, JSON, UTF-8 and the type registry are parameters with stated inverses.
- TcpWriter.Writer.Run: a finite number of connections and of arrivals, that is, a finite part of the run; a successful write counts as delivered, and `Delivery.ReadsInOrder` says what holds of bytes lost behind it.
- TcpWriter.Writer.Serve: the end of the item channel itself is not modelled, since the relay holds a sender for as long as it lives.
- The Stats action, `BatchComplete`, `InitFailed`, `Pause` and `Exited` in the local event loop: local receivers never emit these events, and Stats is not implemented by the pollers.
- Ready, idle, flushed, synchronized and closed notifications other than the order of the events that cause them, and `Receiver::idle`.
- Requesters that give up, and waiters left behind when a request meets a closed channel: a waiter stays alive until its response.
- The 20-second close timeout, a failing slab insertion, wrap-around of the 64-bit id counter, and the semaphore's own maximum.
- Handlers that panic, and handlers that flush or close the receiver they run in.
- `send_blocking`, `send_one`, boxed sends, `request_we`, `flush2`, `sync2` and the other typed variants of the operations modelled.
- The QUIC relay, whose writer drops the item it holds when opening a stream fails, and redis.
- Capacity accounting of relays in `src/relay.rs`: a response there releases the slot of the response's tag, so the local conservation law does not carry over.
- The producer receiver, which is disabled; error conversions, statistics, builders and the rest of the derive output.
- What the relay reader does with an item once it is decoded: replies, `flush_all` and `sync_all` on behalf of the peer.
