# hnet: fibers over io_uring, proved

hnet runs cooperative fibers over one io_uring. A fiber that calls `ring_submit` fills one submission
queue entry (SQE), or two linked ones for a call with a timeout, stores the address of a result setter
on its own stack in `user_data`, and suspends. The poller reaps completions (CQEs), writes each result
through `user_data`, and hands the fiber back to the scheduler once its call is complete. Two programs
are built on this: a UDP server that sends every datagram back doubled, and a client that checks the
replies. An older executor (`netring`) does the same with coroutine handlers and recycled memory.

The project models these three parts and proves what they promise over every run.

## Layout

- `option.dfy`, `errno.dfy`: optional values and the error numbers.
- `ring.dfy`, `poller.dfy`, `submitter.dfy`: the classes `Ring`, `UringResSetter`, `RingPoller` and the
  two `ring_submit` forms as imperative code, each method tied to functions on values.
- `completion.dfy`: all fibers, the ring, the poller and the kernel as one step system over the same
  functions. `completion_invariant.dfy` has its invariant; `completion_theorems.dfy` (lifetime, waking,
  results), `completion_progress.dfy` (counting, draining), `completion_links.dfy` (linked SQEs,
  waiting for ever), `completion_starvation.dfy` (what the starvation counters count) and
  `completion_polling.dfy` (batches, busy polling, lost completions) the results.
- `completion_adjacency.dfy`, `completion_splitting.dfy`, `completion_configurations.dfy`: exactly when
  the two SQEs of a timed call end up apart, told from one state, from a run, and from the sizes of ring
  and program. `completion_runs.dfy` builds runs; `completion_witnesses.dfy` has concrete ones in which
  the code does less than its callers need.
- The methods and the steps compute the ring, the setters and the results with the same functions
  (`Place`, `Starve`, `Reap`, `Store`, `WokenBy`, `PlainOutcome`, `TimedOutcome`).
- `udp_fibers.dfy`: the bodies of one client and one server fiber. `udp_protocol.dfy`,
  `udp_accounting.dfy`: N clients, M servers and the network between them.
- `object_pool.dfy`, `executor.dfy`, `requests.dfy`: the `netring` executor, its pools and its requests.

## What is assumed of the environment

- Fibers give up control only at `tf::Yield` and `Suspend`; the kernel acts at any time. Between two
  calls of one fiber others may run, which allows more interleavings than the code has.
- `io_uring_submit` makes everything built so far visible. Its return value counts the visible SQEs the
  kernel has not taken yet. The kernel takes SQEs in order, never an SQE marked as linking without the
  visible one behind it, and completes what it took in any order, each once, with any result but
  -100512 and -100513. The completion queue does not overflow.
- The poller may be called at any time. The witness runs call it only while `has_pending` holds.
- `RES_VERIFY` is not part of this repository. A failed check is taken to leave the call by an error,
  which destroys the call's frame.
- The network changes and repeats nothing; only the modelled programs send; the server's receives succeed.
- Executor: `io_uring_get_sqe` finds a slot.

## What the code does less than it intends

The exact conditions are proved; concrete runs are in `completion_witnesses.dfy` and `executor.dfy`.

- A timed call whose second SQE has to wait can be split: another fiber's SQE lands behind its operation
  (`ForeignSqeBetween`). At the moment the operation gets its slot this can happen if and only if the slot
  is the last one, the kernel can still free one, and some other fiber can submit (`SplittableExactly`);
  the timeout follows its own operation if and only if nobody got a slot in between
  (`AdjacentIffUndisturbed`).
- A split call goes wrong in one of two ways, told apart by what is unflushed when its timeout is placed
  (`SecondAttemptExactly`). Behind nothing built, the submit check can fail; setters outlive what names
  them in exactly the runs where it never does (`LifetimeExactly`), and otherwise a completion is written
  into a dead frame (`FailedCheckCorrupts`). Behind the operation of another fiber, the timeout guards that
  operation instead of its own, and no check notices (`TimeoutGuardsAnother`).
- Which programs are safe from this follows from two sizes: no timed call is ever split, no check ever
  fails, and no `user_data` ever dangles, if and only if the ring has two entries for each fiber or only
  one entry in all (`SplitsByConfiguration`, `SoundByConfiguration`, `LifetimeByConfiguration`). With a single entry every timed call hangs
  (`SingleEntryHangs`). Two free slots at the start of every timed call also suffice (`LinkAdjacency`,
  `RoomyRunsAreSound`).
- Operations that wait for their timeout's slot can fill the queue; then no fiber ever gets an SQE again
  (`SlotReachableExactly`, `TwoTimedCallsClog`). That can happen if and only if there is a fiber for each
  entry (`ClogsByConfiguration`).
- `TryPoll` overwrites a completion it has reaped when that call reaches the maximum. Completions are
  lost in exactly the runs with such a call (`LosesNothingExactly`), a fiber that lost one never leaves
  its call (`LostMeansStuck`), and for every maximum, zero included,
  a single call can end in a complete deadlock (`LostCompletionDeadlocks`).
- `Xrange::end` returns the start, so `ObjectPoolLite` creates none of its initial objects; the pool
  results count from zero.
- A message too long to double takes the whole UDP server down, and nothing else does
  (`ServerFailsExactly`); no client whose data fits can cause it (`ShortDataKeepsServerUp`).
- A handler that submits two operations before it yields breaks the executor (`TwoOperationsBreak`);
  the loop invariant survives a turn exactly if the handler is disciplined (`DispatchInv`).
- `count / fibers` truncates, so the client makes `fibers * (count / fibers)` requests, and none for a
  negative `count`.

## Model

| member | source | states |
|---|---|---|
| `Rings.Ring.Submit` | ring2/ring2/ring.cc:33-56 | The SQE goes in at the first resumption with a free slot; the call is still waiting if and only if every ring state it woke up in was full; pending grows by one, and the deferred form flushes nothing. Each attempt that finds no slot adds one cycle, seen by others at that yield; the call adds one starvation if and only if there was such an attempt. |
| `Rings.Ring.Poll` | ring2/ring2/ring.cc:58-65 | Yields and removes the oldest completion and counts it off, nothing else. |
| `Rings.Ring.TryPoll` | ring2/ring2/ring.cc:67-78 | As `Poll` if there is a completion, else no change. |
| `Rings.Ring.TryPollMany` | ring2/ring2/ring.cc:80-89 | The oldest completions, at most 16, in order into the front of the array, the rest of it untouched, all counted off at once. |
| `Rings.Ring.HasPending` | ring2/ring2/ring.cc:91-93 | True exactly for a positive count. |
| `Rings.FlushLoad` | ring2/ring2/ring.cc:52-54 | Flushing neither loses nor invents a setter among queued and in-flight entries. |
| `Rings.PlaceLoad` | ring2/ring2/ring.cc:50-55 | Placing an SQE adds its own setter, keeps the queue within its entries, and leaves nothing unflushed in the flushing form. |
| `Pollers.DispatchCqe` | ring2/ring2/poller.cc:9-18 | Writes the result into the setter that `user_data` names and into no other; yields that setter's fiber exactly if its `should_wake` agrees afterwards. |
| `Pollers.RingPoller.TryPoll` | ring2/ring2/poller.cc:27-38 | All three outcomes: a call that reaches the maximum dispatches what the wait found and loses what it had reaped; otherwise a reaped completion is dispatched; otherwise only the attempt is counted. |
| `Pollers.RingPoller.TryPollMany` | ring2/ring2/poller.cc:40-47 | Dispatches the reaped batch in order: setters, ring and the array of fibers, null entries included. |
| `Submitters.RingSubmit` | ring2/ring2/submitter.cc:16-32 | The plain call over any yields and any dispatches while suspended: returns what was dispatched to its own setter, and panics exactly if nothing was; every other call's setter holds the last result dispatched to it or is unchanged. |
| `Submitters.SubmitBoth` | ring2/ring2/submitter.cc:45-57 | The two submits in order, each waiting for its own slot; the count checked is that of the second. |
| `Submitters.RingSubmitTimed` | ring2/ring2/submitter.cc:34-78 | The timed call from both submits to its result, with the failing check as an outcome of its own; every other call's setter holds the last result dispatched to it or is unchanged, and is unchanged if the call did not get to its suspension. |
| `Submitters.FinishTimed` | ring2/ring2/submitter.cc:62-77 | The caller can tell from the value alone: it is the operation's result exactly if the timeout was cancelled or found nothing to time, the timeout code exactly if it was not and it expired or the operation ended well, an error exactly in the remaining case; never a panic. |
| `CompletionInvariant.StepInv` | ring2/ring2/submitter.cc:16-78 | Every step of fibers, kernel and poller keeps the invariant, unless a submit check fails in it. |
| `CompletionInvariant.WakesIffDone` | ring2/ring2/poller.cc:13-17 | A dispatch wakes a fiber exactly if it is parked and this was the last result it waited for; never one that is still trying to place its timeout. |
| `CompletionInvariant.RunInv` | ring2/ring2/submitter.cc:16-78 | So the invariant holds in every state of every run without a failed check. |
| `CompletionTheorems.LifetimeExactly` | ring2/ring2/submitter.cc:16-60 | Over a whole run, every `user_data` in the queues names a setter of a call in progress if and only if no timed call fails its submit check. |
| `CompletionTheorems.StepKeepsLifetimeExactly` | ring2/ring2/submitter.cc:54-58 | The same step by step. |
| `CompletionTheorems.NeverCorrupt` | ring2/ring2/poller.cc:11-12 | No dispatch writes through a dangling `user_data` in such runs. |
| `CompletionTheorems.ReturnsAfterAllDispatched` | ring2/ring2/submitter.cc:25-31 | When a call returns in such a run nothing anywhere names its setters and each holds the kernel's result; in the timed form both, in either order. |
| `CompletionTheorems.WokenExactlyOnce` | ring2/ring2/poller.cc:10-18 | In runs without a failed check `dispatch` returns a fiber exactly once per completed call, at most once in the current one, and only while it is parked. |
| `CompletionTheorems.YieldIsRecorded` | ring2/ring2/poller.cc:13-17 | Every fiber that any dispatch yields is in that record, parked or not. |
| `CompletionTheorems.PlainReturnsOwnResult` | ring2/ring2/submitter.cc:27-31 | In runs without a failed check, every plain call that returned did so with the kernel's result for its own SQE; the `enocqe` panic never happens. |
| `CompletionTheorems.RefinesBlockingCalls` | ring2/ring2/submitter.cc:16-78 | What callers see of any run without a failed check is a run of atomic calls, each returning what the kernel said to its own SQEs. |
| `CompletionTheorems.TimedValue` | ring2/ring2/submitter.cc:62-77 | The operation's result comes back exactly for a cancelled or missing timeout; the timeout code and the error have exact conditions too, and the three cannot be confused. |
| `CompletionTheorems.TimedReturns` | ring2/ring2/submitter.cc:39-77 | The same for every timed call that returned in any run without a failed check, about the kernel's results for its own two SQEs. |
| `CompletionTheorems.ResultsAreTheKernels` | ring2/ring2/poller.cc:11-12 | What is called the kernel's result for an SQE is the one it reported for that SQE in a step of the run, and no other. |
| `CompletionProgress.PendingConserved` | ring2/ring2/ring.cc:51-93 | Counting in a size_t, the pending count is the number of entries in the four queues after every step of every run, failing checks and lost completions included. |
| `CompletionProgress.LoadIsBounded` | ring2/ring2/submitter.cc:16-60 | A fiber never has more than two entries in the queues. |
| `CompletionProgress.PendingExact` | ring2/ring2/ring.cc:58-93 | The count is exact, so it never underflows, in every run shorter than a size_t can count, failing checks and lost completions included, and in runs of any length without a failed check. |
| `CompletionProgress.AwaitedIsPending` | ring2/ring2/ring.cc:91-93 | The count is positive while any setter waits for a result that was not lost. |
| `CompletionProgress.ParkedIsPending` | ring2/ring2/ring.cc:91-93 | `has_pending` holds while any fiber is parked that lost no completion of its own. |
| `CompletionStarvation.StarvedExactly` | ring2/ring2/ring.cc:35-43 | In every run a waiting fiber's `starved` is set if and only if it has already found no slot for that very SQE. |
| `CompletionStarvation.StarvationCounted` | ring2/ring2/ring.cc:38-46 | In every run `cycles` is the number of attempts that found no slot, and `times` the number of SQEs that were placed after at least one such attempt. |
| `CompletionProgress.DrainTerminates` | ring2/ring2/ring.cc:50-89 | Once submits stop nothing is left unflushed, and the steps that move an entry number at most the measure of the queues, whatever else happens in between. |
| `CompletionProgress.DrainProgress` | ring2/ring2/ring.cc:58-89 | While the measure is positive some such step is possible. |
| `CompletionProgress.DrainedMeansWoken` | ring2/ring2/poller.cc:27-47 | When none is, the queues are empty and a fiber has been woken if and only if none of its own completions was lost. |
| `CompletionLinks.LinkAdjacency` | ring2/ring2/submitter.cc:45-58 | With two free slots at the start the timeout directly follows its operation and one flush shows both, wherever kernel steps fall; the check passes. |
| `CompletionLinks.RoomyRunsAreSound` | ring2/ring2/submitter.cc:45-58 | If every timed call of a run starts with two free slots, no submit check fails in it, so the lifetime, waking and result theorems hold of it. |
| `CompletionLinks.CheckCanFailExactly` | ring2/ring2/submitter.cc:54-58 | The submit check can fail if and only if the entry before the timeout does not link to it. |
| `CompletionAdjacency.SecondAttemptExactly` | ring2/ring2/submitter.cc:45-58 | When the timeout gets its slot it follows its own operation if and only if that was built last; it follows another fiber's operation if and only if something else was; the check can fail if and only if nothing is built. In every run. |
| `CompletionAdjacency.AdjacentIffUndisturbed` | ring2/ring2/ring.cc:36-56 | Over any run the timeout follows its own operation if and only if nobody obtained a slot between the two. |
| `CompletionSplitting.SplittableExactly` | ring2/ring2/ring.cc:36-43 | From the state in which the operation gets its slot, another fiber's SQE can land behind it before the timeout is placed if and only if that slot is the last one, the kernel can still free one, and some other fiber is not stuck with a lost completion. |
| `CompletionConfigurations.SplitsByConfiguration` | ring2/ring2/ring.cc:36-56 | A run in which another fiber's SQE lands between the two halves of a timed call exists if and only if the ring has at least two entries but fewer than two for each fiber. |
| `CompletionConfigurations.SoundByConfiguration` | ring2/ring2/submitter.cc:45-58 | No run fails a submit check if and only if the ring has two entries for each fiber, or a single one. |
| `CompletionConfigurations.LifetimeByConfiguration` | ring2/ring2/submitter.cc:16-60 | These are exactly the configurations in which no run leaves a `user_data` dangling. |
| `CompletionConfigurations.BuiltBound` | ring2/ring2/ring.cc:36-56 | In every run the unflushed SQEs are at most the fibers between the halves of a timed call, so fewer of those than entries means not clogged. |
| `CompletionConfigurations.ClogsByConfiguration` | ring2/ring2/ring.cc:36-43 | A run that clogs the queue exists if and only if there is a fiber for each entry. |
| `CompletionLinks.CheckFailsOnlyIfSplit` | ring2/ring2/ring.cc:36-43 | It fails only after the operation was flushed without its timeout. |
| `CompletionLinks.CloggedForever` | ring2/ring2/ring.cc:36-43 | Once unflushed operations fill the queue nothing is ever flushed and every waiting fiber waits for ever. |
| `CompletionLinks.SlotReachableExactly` | ring2/ring2/ring.cc:36-43 | A slot can still turn up if and only if they do not fill it. |
| `CompletionLinks.SingleEntryHangs` | ring2/ring2/submitter.cc:45-57 | On a ring with one entry no timed call that starts ever returns. |
| `CompletionPolling.SingleIsBatch` | ring2/ring2/poller.cc:40-47 | One batch of k leaves the ring and the setters of k single polls and yields the same fibers in the same order. |
| `CompletionPolling.PollManyIsSinglePolls` | ring2/ring2/ring.cc:80-89 | A batch step of any reachable state ends in the ring and the setters of as many single polls, and wakes exactly the fibers these yield, each once. |
| `CompletionPolling.PairWakesOnce` | ring2/ring2/poller.cc:40-47 | In any reachable state, two completions for one fiber in one batch are those of its timed call: the first yields nothing, the second the fiber, which was parked and is woken once. |
| `CompletionPolling.WaitingPollIsTwoSteps` | ring2/ring2/poller.cc:28-35 | The step system's poll and wait leave the ring as the method `TryPoll` does. |
| `CompletionPolling.AttemptsCountEmptyPolls` | ring2/ring2/poller.cc:27-38 | `attempts_` is the number of empty polls since the last reaping or wait and stays below a positive maximum between calls. |
| `CompletionPolling.BusyPollBound` | ring2/ring2/poller.cc:29-32 | A poll blocks if and only if maximum - 1 empty ones precede it; there are never more. |
| `CompletionPolling.LosesNothingExactly` | ring2/ring2/poller.cc:28-32 | No completion is lost if and only if no poll both reaps and reaches the maximum. |
| `CompletionPolling.ReapedIsDispatchedOrLost` | ring2/ring2/poller.cc:27-47 | In runs without a failed check a kernel result of a call in progress is in exactly one of its setter, the completion queue and the lost ones. |
| `CompletionPolling.LostMeansStuck` | ring2/ring2/poller.cc:28-32 | In such runs a fiber whose completion was lost never leaves that call. |
| `CompletionWitnesses.ForeignSqeBetween` | ring2/ring2/ring.cc:36-43 | A reachable state with another fiber's SQE between an operation and its timeout. |
| `CompletionWitnesses.CheckFails` | ring2/ring2/submitter.cc:54-58 | From there the submit check fails. |
| `CompletionWitnesses.FailedCheckCorrupts` | ring2/ring2/poller.cc:11-12 | And a completion is written into the frame that is gone. |
| `CompletionWitnesses.TimeoutGuardsAnother` | ring2/ring2/submitter.cc:45-58 | A reachable state in which a timeout goes out right behind the linked operation of another fiber and the submit check cannot fail. |
| `CompletionWitnesses.TwoTimedCallsClog` | ring2/ring2/ring.cc:36-43 | Two timed calls clog a ring of two entries. |
| `CompletionWitnesses.LostCompletionDeadlocks` | ring2/ring2/poller.cc:28-32 | For every maximum, a reachable state in which a fiber is parked, its completion is lost and no step is possible; the poller polled only while `has_pending` held. |
| `UdpFibers.ServerFiber.Receive` | ring2/ring2/submitter.cc:116-138 | A receive fills the buffer from its start, truncated to its size, and leaves the rest as it was; a failing one yields its negative result and an empty view and leaves the buffer alone. |
| `UdpFibers.ServerFiber.Double` | src/srv2.cc:119-122 | The in-place copy makes the received bytes appear twice and touches nothing beyond. |
| `UdpFibers.ServerFiber.Serve` | src/srv2.cc:115-128 | Every message is answered with itself twice, to its sender, whatever the buffer held; the loop ends exactly at the first message that fails the length check, unanswered, or at the first send that fails, which is the last. |
| `UdpFibers.RunClient` | src/infallible_udp.cc:109-144 | Each completed iteration sent, and was either given up for dead, at the timeout code or EINTR, or got the data back twice; both counters grow by exactly these; the loop ends early exactly at a failing send or any other failing receive, by an error, or at other bytes, by the panic. |
| `UdpProtocol.EndToEndEcho` | src/infallible_udp.cc:97-139 | In every run, every datagram on its way to a client is that client's data twice, and no client reaches the bad-response panic. |
| `UdpProtocol.SendExactly` | src/infallible_udp.cc:112-121 | A send puts one request with the client's data on its way and opens the exchange, or ends the fiber. |
| `UdpProtocol.ReceiveFailsExactly` | src/infallible_udp.cc:123-134 | The timeout code and EINTR count one dead packet, in the client and in the shared counter, and the next iteration begins if one is left; any other failure ends the fiber uncounted. |
| `UdpProtocol.ReceiveExactly` | src/infallible_udp.cc:132-144 | The data twice is recorded, in the client and in the shared counter, and the next iteration begins if one is left; other bytes are the panic. |
| `UdpProtocol.LossExactly` | src/srv2.cc:123-127 | Any datagram may be lost and any reply may fail to be sent, which ends its server fiber; nothing else changes. |
| `UdpProtocol.UndisturbedExchange` | src/infallible_udp.cc:109-144 | From any state of a run, an exchange that nothing disturbs succeeds and is recorded. |
| `UdpProtocol.ReplyIsEcho` | src/srv2.cc:115-128 | A server fiber's reply is the received datagram doubled, to its sender, whatever happens between receive and send. |
| `UdpProtocol.ServerFailsExactly` | src/srv2.cc:118-118 | In any run the server is down if and only if some message received so far was too long to double in its buffer. |
| `UdpProtocol.ShortDataKeepsServerUp` | src/srv2.cc:115-128 | It stays up in every run in which each client's data, doubled, is shorter than the buffer. |
| `UdpAccounting.StepConserved` | src/infallible_udp.cc:109-144 | Every step keeps a client's sends equal to its exchanges still travelling, accepted or lost. |
| `UdpAccounting.Backlog` | src/infallible_udp.cc:109-144 | A client's exchanges anywhere in the system number at most its dead packets, plus one while one is open; accepted replies never exceed sends. |
| `UdpAccounting.ClientAccounting` | src/infallible_udp.cc:96-155 | When all fibers finished, timings and dead packets add up to fibers times the quotient, whatever the interleaving, and to no more than `count`. |
| `UdpAccounting.RepliesBounded` | src/srv2.cc:115-128 | Requests received are answered, in a server fiber's hands, failed in sending, or too long; replies never exceed them. |
| `ObjectPools.ObjectPoolLite.constructor` | five/five/object_pool.h:54-62 | Whatever the initial size, the pool starts empty. |
| `ObjectPools.ObjectPoolLite.Get` | five/five/object_pool.h:64-71 | The last object put back, or a new one if there is none. |
| `ObjectPools.ObjectPoolLite.Put` | five/five/object_pool.h:73-75 | The object is the next to come out. |
| `ObjectPools.GetPartitions` | five/five/object_pool.h:64-71 | What `get` hands out nobody else has; free and handed-out objects remain all that were made. |
| `ObjectPools.PutPartitions` | five/five/object_pool.h:73-75 | `put` keeps that. |
| `ObjectPools.PutThenGet` | five/five/object_pool.h:64-75 | `get` undoes `put`. |
| `Executors.DispatchInv` | netring/netring/uf.h:142-193 | One turn of the loop keeps the loop-head invariant if and only if the handler it runs submits one operation per yield and none before finishing. |
| `Executors.DatagramStartsHandler` | netring/netring/uf.h:149-177 | A datagram whose handler yields makes exactly one new cookie live, taken from the pool, with a stack that no live handler held; the others stay as they are and the receive is outstanding again. |
| `Executors.OneShotLeavesNothing` | netring/netring/uf.h:149-177 | One whose handler finishes at once leaves the live handlers as they were, and the cookie and the stack it used are free. |
| `Executors.HandlerGoesOn` | netring/netring/uf.h:178-185 | A completion for a handler that yields again changes no cell and no pool. |
| `Executors.HandlerEnds` | netring/netring/uf.h:178-189 | A completion for a handler that finishes ends exactly this one and frees its cookie and its stack. |
| `Executors.HandlersAddUp` | netring/netring/uf.h:142-193 | Over any run of disciplined handlers, the datagrams received are the handlers that are live or have finished. |
| `Executors.FaultExactly` | netring/netring/uf.h:190-192 | In any run, disciplined or not, there is no fault exactly as long as each completion finds a request or a live handler. |
| `Executors.LoopHead` | netring/netring/uf.h:137-193 | At every loop head one receive is outstanding under a cookie that holds a request, each live handler has one operation in flight under its own cookie, and the unreachable branch was never taken. |
| `Executors.PoolsPartitioned` | netring/netring/uf.h:133-190 | Free cookies, the receive cookie and live handlers' cookies are disjoint, no stack is shared, and free plus held stacks are all that were made. |
| `Executors.TwoOperationsBreak` | netring/netring/uf.h:178-189 | A handler with two operations in flight can be resumed after it finished. |
| `Executors.Executor.DispatchLoop` | netring/netring/uf.h:128-194 | The imperative loop over any completions of operations in flight goes through a run of the modelled turns and keeps the invariant. |
| `Requests.MoveTransfers` | netring/netring/uf.h:30-42 | A move hands over the buffer and the length with no allocation and no free, points the new object at itself and leaves the old one with null pointers, owning nothing. |
| `Requests.ConstructExactly` | netring/netring/uf.h:19-26 | A new request has the length asked for and a buffer that nobody had, points at itself, and changes no other. |
| `Requests.SetLenExactly` | netring/netring/uf.h:51-52 | Writing an object's `iov_len` changes that length only. |
| `Requests.LengthCarried` | netring/netring/uf.h:19-42 | In any run the length of a request is that of its construction, or the last one set, through every move. |
| `Requests.SharedBufferIsFreedTwice` | netring/netring/uf.h:37-41 | If two requests had one buffer, destroying both would free it twice, and the model would show it. |
| `Requests.DanglingHeaderIsFault` | netring/netring/uf.h:57-61 | Destroying an object whose header points at one that is gone would be a fault in the model. |
| `Requests.DestroyInv` | netring/netring/uf.h:57-71 | Destruction frees the object's own buffer, if it has one, nobody else's ownership changes, and the invariant stays. |
| `Requests.BuffersOwnedAndFreedOnce` | netring/netring/uf.h:19-71 | After any constructions, moves and destructions each buffer has one owner or was freed once, and owners point at their own fields. |
| `Requests.PoolGetTransfers` | five/five/object_pool.h:64-69 | A request taken from a pool is the one that was in the slot, pointing at itself in its new place. |
| `Requests.Request.MoveFrom` | netring/netring/uf.h:30-42 | The move constructor on the object itself, loop and `clear` included. |
| `Requests.Request.Clear` | netring/netring/uf.h:57-67 | `clear` frees what the header points at and empties the header. |

## Left out

- Rings.Ring.Submit: the yields of one call are a finite sequence, so a call that waits for ever is one
  that still waits however long the sequence; `CloggedForever` speaks about those.
- The scheduler of tinyfibers and the context switches of sure: only spawn, yield, suspend and resume are
  modelled, as steps.
- Sockets, system calls, affinity, clocks and durations: the kernel and the network choose every result.
- Errors returned by `io_uring_submit`, `io_uring_wait_cqe` and `io_uring_peek_cqe` other than an empty queue.
- What the kernel does with a link beyond taking the pair together: cancelled operations are just results.
- `first_stop`, the trimming of `timings`, sorting, quantiles and all printing: reporting.
- A server fiber's failing receive is in `UdpFibers` (an empty reply to whatever address is there) but not a
  step of `UdpProtocol`, where receives succeed. That a view nobody filled is empty is an assumption about
  `wheels`, which is not part of this repository.
- `UdpFibers.Byte` payloads stand for the client's string; `std::to_string` and the repetition of
  `data_to_send` are left out, any non-empty data and distinct ports are allowed.
- The TCP branch of `src/srv2.cc`, `src/cli.cc`, `src/proto.*`, `src/reh.*`, `netring/netring/sure.h` and
  `netring/netring/driver.h`: nothing beyond the modelled pair, or drafts.
- The callback forms and the context pool in `netring/netring/uring.cc`, and its peek loop: the executor
  uses only the cookie forms, and the loop affects no result.
- The executor's pool of requests: its requests are in `Requests`, not in the state of `Executors`.
- `Addr`, configuration, logging, `five/five/bit_ptr.h`, `five/five/ring_buffer.h` and `five/five/time.h`:
  easy or plumbing.
