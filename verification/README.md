# cppgate: its concurrent protocols and its dispatch, verified

cppgate is a C++ HTTP and WebSocket library. This project models the parts of it whose correctness
depends on whole runs: a lock-free ring buffer, a connection pool, the reconnecting WebSocket client,
the HTTP client's call and keep-alive pool, the server's WebSocket session, graceful stop, the
resolution of a client's address behind proxies, and the router.

## How the models are built

Each concurrent part has two modules.

- The `...Protocol` (or `GracefulStop`, `KeepAlivePool`) module has the state as a datatype and one
  total function `Next(state, action)`. An action is one atomic access (ring buffer, the exchange in
  `send`), one lock-held section (pool, keep-alive list, registry) or one handler on a strand (client,
  call, session). An asynchronous operation is a token: an action may consume a pending token at any
  time and with any outcome. `Run` is any sequence of actions, so a theorem about `Run` is about every
  interleaving. An action that is not possible in a state changes nothing. Fields that only record
  history (what was pushed, delivered, accepted, sent, reported) are part of the state.
- The `...Object` (or `RingBufferMemory`) module has the class with the fields the source has. Its
  methods change them in place, and each one's postcondition says that the fields then are what the
  protocol's function gives. `Step` takes any action, a completion together with its token, and equals
  `Next`, so the theorems about runs are theorems about the object. (The registry has its three
  operations instead.)

Calls that make several atomic accesses (`push`, `pop`, `send`) are also methods as a whole, with a list of
what other threads do between their accesses: `RingBufferCalls` and `WebSocketSends` say what they may rely
on. `GracefulStop` has whole sessions as its members, with the steps of `WebSocketSessionProtocol`.

The modules of answers (`PoolConnections`, `ClientReports`, `CallResults`, `SessionMessages`,
`ProxyAnswers`, `RouterAnswers`) say what the user of each part gets: where every connection is, every event
with its code, every result, what becomes of every message, and which address or handler answers.

`Backoff`, `TrustedProxies` and `RouteTable`/`RouteDispatch` are not concurrent: they have
specification functions, theorems about those, and methods with the source's loops proved against them.

| file | modules |
|---|---|
| Optional.dfy | Optional |
| RingBuffer.dfy | RingBufferProtocol, RingBufferMemory |
| RingBufferCalls.dfy | RingBufferCalls |
| ConnectionPool.dfy | ConnectionPoolProtocol, ConnectionPoolObject |
| PoolConnections.dfy | PoolConnections |
| IdleExpiry.dfy | IdleExpiry |
| WebSocketClient.dfy | WebSocketClientProtocol |
| ClientReports.dfy | ClientReports |
| WebSocketConnection.dfy | WebSocketSends, WebSocketClientObject |
| Backoff.dfy | Backoff |
| HttpClient.dfy | HttpCallProtocol, KeepAlivePool, KeepAliveObject, HttpCallObject |
| CallResults.dfy | CallResults |
| ServerSession.dfy | WebSocketSessionProtocol, WebSocketSessionObject |
| SessionMessages.dfy | SessionMessages |
| SessionRegistry.dfy | GracefulStop, SessionRegistryObject |
| SessionLives.dfy | SessionLives |
| TrustedProxies.dfy | TrustedProxies, TrustedProxiesObject |
| ProxyAnswers.dfy | ProxyAnswers |
| Router.dfy | RouteTable, RouteDispatch, RouterObject |
| RouterAnswers.dfy | RouterAnswers |

## What does not hold

Four things one would expect of the code are false. Each has a concrete input and an exact condition.

- A ring buffer asked for 0 or 1 items has one slot, and with one slot "published" and "free for the next
  lap" are the same number: a producer can overwrite an item while it is read (`OneSlotBreaks`). It is
  safe in every run exactly when 2 or more items are asked for (`SafeExactlyFromTwo`).
- The comment at include/cppgate/ConnectionPool.h:37 and the repository's README.md:400 say that idle connections are only
  closed down to min_size. Two overlapping checkouts that both read "above min_size" before either
  finishes close one too many, for all sizes with 0 < min_size < max_size (`ExpiryGoesBelowMinSize`). The
  promise holds in every run exactly for min_size = 0 and min_size = max_size
  (`ExpiryKeepsMinSizeExactly`).
- The retry delay is not the documented doubling, and not monotone, for some negative delays: with an
  initial delay of -1 and a maximum of -3 the third retry waits -3 instead of -4 (`NegativeDelaysDiffer`).
  Every retry waits as documented exactly when the initial delay is not negative or is below the maximum
  (`EveryDelayIsCappedDoubling`), and later retries never wait less exactly under the condition of
  `MonotoneExactly`.
- Nesting groups is not always the same as one merged group: a route that does not compile with the inner
  prefix alone is dropped, although it would compile with both. The input of `NestingDiffers` has a
  malformed brace in its outer prefix "/{", which ends the reading of the merged path before the bad
  expression of the inner prefix "/{x:(}" is reached. `NestedGroupsMerge` has the exact condition.

## Model

| member | source | states |
|---|---|---|
| `RingBufferProtocol.NextInv` | include/cppgate/RingBuffer.h:76-123 | the invariant (each slot is free for one ticket or holds one published item; each thread's view of its ticket; what was delivered) survives every single atomic access of any thread, a spurious failure of the exchange included |
| `RingBufferProtocol.EveryRunIsSafe` | include/cppgate/RingBuffer.h:76-123 | on two slots or more, after any interleaving of any number of producers and consumers: no two threads touch the data of one slot, every pop returned the item its ticket's producer pushed, no ticket is delivered twice, and every ticket is delivered, with its consumer, in its slot or with its producer |
| `RingBufferProtocol.ExclusiveAccess` | include/cppgate/RingBuffer.h:86-106 | threads that are writing or reading data are at different slots |
| `RingBufferProtocol.NothingLost` | include/cppgate/RingBuffer.h:76-111 | every ticket below tail is delivered or with exactly the consumer that took it; every other ticket below head is in its slot or with its producer |
| `RingBufferProtocol.ReadyMeansPublished` | include/cppgate/RingBuffer.h:101-104 | a sequence of pos + 1 always means that ticket pos is published, never that the slot is free for ticket pos + 1: this is what fails with one slot |
| `RingBufferProtocol.BitCeilCorrect` | include/cppgate/RingBuffer.h:49-55 | the size is the least power of two that is large enough; it is at least 2 exactly when 2 or more was asked for |
| `RingBufferProtocol.OneSlotBreaks` | include/cppgate/RingBuffer.h:82-109 | a run on one slot in which a producer writes the data while a consumer reads it |
| `RingBufferProtocol.SafeExactlyFromTwo` | include/cppgate/RingBuffer.h:49-123 | exclusive access holds in every run if and only if the requested size is at least 2 |
| `RingBufferProtocol.PopGivesUp` | include/cppgate/RingBuffer.h:94-117 | pop() reports false exactly when its position, possibly stale, is still the tail and that ticket is not published; if head is beyond, a producer is inside that very push() |
| `RingBufferProtocol.PopRetries` | include/cppgate/RingBuffer.h:97-121 | every access of a pop() that has no ticket: it reports false only while the tail ticket is unpublished, wins exactly the tail ticket by an exchange that finds its position still the tail, and tries again, at the current tail, only after another consumer moved the tail past it or the exchange failed without cause |
| `RingBufferProtocol.QuiescentQueue` | include/cppgate/RingBuffer.h:72-123 | with no operation in flight: the tickets [tail, head) are at most Size items, each in its slot; empty() holds exactly when there are none; all that was pushed is, as a multiset, what was popped plus what is there |
| `RingBufferProtocol.SoloPush` | include/cppgate/RingBuffer.h:76-92 | an unhindered push() on a buffer with room appends its item to the queue and changes nothing else |
| `RingBufferProtocol.SoloPop` | include/cppgate/RingBuffer.h:96-123 | an unhindered pop() on a non-empty buffer removes and returns the oldest item |
| `RingBufferProtocol.SoloEmptyPop` | include/cppgate/RingBuffer.h:96-117 | an unhindered pop() on an empty buffer reports false and leaves the buffer as it was |
| `RingBufferMemory.RingBuffer.constructor` | include/cppgate/RingBuffer.h:49-55 | whatever the memory holds, the result is the protocol's initial state with bit_ceil(req_size) slots |
| `RingBufferMemory.RingBuffer.IsEmpty` | include/cppgate/RingBuffer.h:72-74 | tells whether head and tail are equal in the protocol state |
| `RingBufferMemory.RingBuffer.TakeTicket` | include/cppgate/RingBuffer.h:76-79 | the fetch_add of push(): returns the old head and does the protocol's first step of a producer |
| `RingBufferMemory.RingBuffer.LoadTail` | include/cppgate/RingBuffer.h:96-97 | the first load of pop() |
| `RingBufferMemory.RingBuffer.Access` | include/cppgate/RingBuffer.h:82-121 | the next atomic access of a thread, on the arrays, is the protocol's step: wait, write, publish, check, exchange, read or release |
| `RingBufferMemory.RingBuffer.Step` | include/cppgate/RingBuffer.h:76-123 | any step of any thread on the arrays is the protocol's step |
| `RingBufferMemory.RingBuffer.Steps` | include/cppgate/RingBuffer.h:76-123 | any steps of any threads are a run of the protocol, so what is proved of every run holds of the arrays |
| `RingBufferMemory.RingBuffer.Push` | include/cppgate/RingBuffer.h:76-92 | among other threads that take any steps between its accesses: when it is done its item, under the ticket it took, is in its slot, with its one consumer, or delivered; before, it is inside with that ticket |
| `RingBufferMemory.RingBuffer.Pop` | include/cppgate/RingBuffer.h:96-123 | among other threads that take any steps between its accesses: with any spurious failures of the exchange: when it returned true it won, during the call, the ticket whose pushed item it returns; when it returned false it won none and no item is published at the tail |
| `ConnectionPoolProtocol.NextInv` | include/cppgate/ConnectionPool.h:223-442 | slot accounting, queue, order, flags, ownership and "nobody waits beside something free" survive every step |
| `ConnectionPoolProtocol.EveryRunKeepsThePool` | include/cppgate/ConnectionPool.h:223-442 | in every reachable state: open equals idle plus handles plus slots in calls, between 0 and max_size; the queue is exactly the unserved waiters in arrival order; no waiter has two flags; a non-empty queue means no idle connection and no free slot; no connection has two owners |
| `ConnectionPoolProtocol.LockedAccounting` | include/cppgate/ConnectionPool.h:250-307 | the balance of slots after any lock-held section, also when a slot passes to a waiter or back after a failed factory |
| `ConnectionPoolProtocol.DecrementsAreCovered` | include/cppgate/ConnectionPool.h:399-442 | whoever decrements open still counts in it, so it never underflows |
| `ConnectionPoolProtocol.TimeoutFindsIt` | include/cppgate/ConnectionPool.h:290-294 | a waiter that times out unserved stands in the queue exactly once, and erasing it leaves the others in order |
| `ConnectionPoolProtocol.NoOvertaking` | include/cppgate/ConnectionPool.h:254-284 | acquire() takes a connection or opens one at once if and only if there is one idle or a free slot, and then nobody is queued |
| `ConnectionPoolProtocol.FirstComeFirstServed` | include/cppgate/ConnectionPool.h:283-307 | over any run: of two queued waiters the earlier is served first, and the later is never served while the earlier is still queued |
| `ConnectionPoolProtocol.MostRecentFirst` | include/cppgate/ConnectionPool.h:258-262 | a connection given back with no waiters is the one the next acquire() checks out |
| `ConnectionPoolProtocol.HandedToFirstWaiter` | include/cppgate/ConnectionPool.h:414-421 | a connection given back goes to the head of the queue, not through the idle list, and becomes that thread's handle |
| `ConnectionPoolProtocol.FailedOpenPassesOn` | include/cppgate/ConnectionPool.h:357-366 | when the factory throws, the slot passes to the first waiter, who opens in it, or is freed if there is none |
| `ConnectionPoolProtocol.WarmUpFills` | include/cppgate/ConnectionPool.h:221-236 | an undisturbed warmUp() opens exactly the connections missing to min_size and leaves them idle |
| `ConnectionPoolProtocol.ClosedForGood` | include/cppgate/ConnectionPool.h:312-333 | after close() no idle connection and no waiter ever reappears, and open is 0 once no handle and no call holds a slot |
| `IdleExpiry.ExpiryKeepsMinSizeExactly` | include/cppgate/ConnectionPool.h:262-286 | that no expiry takes the open pool below min_size holds in every run if and only if the pool was made with min_size = 0 or min_size = max_size |
| `IdleExpiry.ExpiryGoesBelowMinSize` | include/cppgate/ConnectionPool.h:262-286 | for all sizes in between: a run of nothing but acquire(), release and expiry, with two overlapping checkouts, after which min_size - 1 connections are open |
| `ConnectionPoolObject.ConnectionPool.Create` | include/cppgate/ConnectionPool.h:200-214 | refuses exactly a missing factory, max_size = 0 and min_size > max_size; otherwise a pool with the invariant |
| `ConnectionPoolObject.ConnectionPool.AcquireRound` | include/cppgate/ConnectionPool.h:252-284 | one lock-held round of acquire(), on the fields, is the protocol's step |
| `ConnectionPoolObject.ConnectionPool.WarmUpRound` | include/cppgate/ConnectionPool.h:227-232 | one lock-held round of warmUp() is the protocol's step |
| `ConnectionPoolObject.ConnectionPool.GiveBack` | include/cppgate/ConnectionPool.h:400-424 | giveBack() on the fields is the protocol's step |
| `ConnectionPoolObject.ConnectionPool.DroppedSlot` | include/cppgate/ConnectionPool.h:427-442 | dropped() on the fields is the protocol's step |
| `ConnectionPoolObject.ConnectionPool.WaitTimedOut` | include/cppgate/ConnectionPool.h:290-294 | the search for the waiter always ends at its entry, and erasing it is the protocol's step |
| `ConnectionPoolObject.ConnectionPool.Close` | include/cppgate/ConnectionPool.h:312-333 | close() with its loop over the waiters is the protocol's step |
| `ConnectionPoolObject.ConnectionPool.Step` | include/cppgate/ConnectionPool.h:223-442 | any step of the pool, its calls and its handles, on the fields, is the protocol's step and keeps the invariant |
| `PoolConnections.EveryConnectionLivesUntilClosed` | include/cppgate/ConnectionPool.h:223-442 | in every run each connection the factory opened is idle, in a handle or in a call until a step closes it (a failed check, an expiry, a discard, close(), or its return to a closed pool), and nowhere afterwards |
| `PoolConnections.StepOfALife` | include/cppgate/ConnectionPool.h:223-442 | one step: a connection is somewhere afterwards if and only if it was, or was just opened, and the step did not close it |
| `PoolConnections.CheckDecides` | include/cppgate/ConnectionPool.h:262-268 | a connection that passes the checks becomes the caller's handle; one found broken, or expired above min_size, is nowhere, and the caller gives its slot up and tries again |
| `PoolConnections.RefusedForGood` | include/cppgate/ConnectionPool.h:369-387 | a refused connection is at no place in any later run |
| `PoolConnections.OpenedIsHandedOut` | include/cppgate/ConnectionPool.h:271-277 | what the factory opened for acquire() becomes the caller's handle, a connection that was nowhere before |
| `PoolConnections.MovedHandle` | include/cppgate/ConnectionPool.h:82-88 | a moved handle keeps its connection, and the source is empty |
| `PoolConnections.ReleasedGoes` | include/cppgate/ConnectionPool.h:119-125 | after release() the connection is with the first waiter, at the back of the idle list, or closed with the pool |
| `PoolConnections.DiscardedGoes` | include/cppgate/ConnectionPool.h:128-137 | discard() closes the connection at once; its slot goes to the first waiter or is freed |
| `PoolConnections.TimedOutLeaves` | include/cppgate/ConnectionPool.h:290-294 | a timeout takes the call off the queue and ends it, and changes nothing else |
| `PoolConnections.ClosedCallsEnd` | include/cppgate/ConnectionPool.h:254-297 | after close() a waiting call and a later acquire() end without a connection |
| `WebSocketClientProtocol.NextInv` | sources/Client/WebSocketClient.cpp:238-619 | phase, pending operations, close flags, queue, counter and what the user was told stay consistent under every step |
| `WebSocketClientProtocol.EventsOfEveryRun` | sources/Client/WebSocketClient.cpp:252-266 | in every run onOpen and onClose alternate, starting with onOpen; connected holds exactly in between; a stopped connection owes no onClose; retries count 1, 2, ... since the last onOpen and stay within max_attempts |
| `WebSocketClientProtocol.NeverStuck` | sources/Client/WebSocketClient.cpp:274-452 | until it is stopped, the connection always waits for the operation that moves it on, of the current generation; while closing, each of the two ends is pending exactly until it is marked done |
| `WebSocketClientProtocol.SendsOfEveryRun` | sources/Client/WebSocketClient.cpp:505-564 | pending equals queue plus posted sends plus reservations, from 0 to send_queue_limit, with any number of senders; at most one write per generation is in flight and carries the front, and one is in flight while there is something to write, unless a write failed; written messages followed by the queue are the accepted messages, in order |
| `WebSocketClientProtocol.LostConnection` | sources/Client/WebSocketClient.cpp:473-518 | an open connection that ends is reported with the peer's code or 1006, after onError if it broke, and waits for a retry if and only if reconnecting is on, the client is alive and fewer than max_attempts retries were reported since the last open; otherwise it is stopped for good |
| `WebSocketClientProtocol.FailedAttempt` | sources/Client/WebSocketClient.cpp:370-439 | a failed attempt waits for a retry under the same condition, never after close() and never after the server declined |
| `WebSocketClientProtocol.TimerRetries` | sources/Client/WebSocketClient.cpp:434-438 | the timer starts a new attempt with the next generation, unless the client is being destroyed |
| `WebSocketClientProtocol.EitherEndReportsOnce` | sources/Client/WebSocketClient.cpp:473-503 | whichever of the aborted read and the close completion comes first: one onClose, by the second, with the same code, and the connection is stopped |
| `WebSocketClientProtocol.ReadMayEndItAlone` | sources/Client/WebSocketClient.cpp:473-491 | during our close a read that ends otherwise reports the onClose at once, and the late close completion adds nothing |
| `WebSocketClientProtocol.QuietNext` | sources/Client/WebSocketClient.cpp:274-596 | a step after close() keeps the generation and adds at most one onOpen, onMessage or onClose |
| `WebSocketClientProtocol.AfterClose` | sources/Client/WebSocketClient.cpp:568-596 | over any run after close() ran: same generation, no onError or onReconnecting, at most one onOpen (only if an attempt was under way) and at most one onClose |
| `WebSocketClientObject.WsConnection.Stop` | sources/Client/WebSocketClient.cpp:252-261 | sets the phase, clears connected and releases the callbacks, nothing else |
| `WebSocketClientObject.WsConnection.Attempt` | sources/Client/WebSocketClient.cpp:274-289 | stops if close() or the client's destructor came first, otherwise starts a new generation |
| `WebSocketClientObject.WsConnection.ScheduleRetry` | sources/Client/WebSocketClient.cpp:417-439 | stop, give up, or count the failure, report it and wait |
| `WebSocketClientObject.WsConnection.AttemptFailed` | sources/Client/WebSocketClient.cpp:408-415 | stop quietly after close(), otherwise report and schedule |
| `WebSocketClientObject.WsConnection.CloseOpen` | sources/Client/WebSocketClient.cpp:598-619 | records the code and starts the close |
| `WebSocketClientObject.WsConnection.OnUpgrade` | sources/Client/WebSocketClient.cpp:370-406 | declined, failed or open; after a close() during the handshake it opens and closes at once |
| `WebSocketClientObject.WsConnection.Ended` | sources/Client/WebSocketClient.cpp:473-491 | the end of the read: our own close, the peer's close, or a broken connection |
| `WebSocketClientObject.WsConnection.FinishOwnClose` | sources/Client/WebSocketClient.cpp:494-503 | which code our own close reports |
| `WebSocketClientObject.WsConnection.Closed` | sources/Client/WebSocketClient.cpp:505-518 | drops the queue and its share of the counter, reports, and retries or stops |
| `WebSocketClientObject.WsConnection.Written` | sources/Client/WebSocketClient.cpp:554-561 | the write completion: stale or empty, failed, or pop the front and go on |
| `WebSocketClientObject.WsConnection.Enqueue` | sources/Client/WebSocketClient.cpp:532-542 | the posted part of send(): give the place back, or queue and start writing |
| `WebSocketClientObject.WsConnection.SenderAccess` | sources/Client/WebSocketClient.cpp:525-543 | the next access of a send(): true with the post, false when it finds pending at the limit |
| `WebSocketClientObject.WsConnection.Send` | sources/Client/WebSocketClient.cpp:520-544 | among other senders and handlers that take any steps between its accesses, with any spurious failures of the exchange: when it returned true its message was posted with the current generation; when it returned false it was not connected or found the limit reached |
| `WebSocketClientObject.WsConnection.DoClose` | sources/Client/WebSocketClient.cpp:568-596 | the four cases of a posted close() |
| `WebSocketClientObject.WsConnection.Step` | sources/Client/WebSocketClient.cpp:238-619 | any step on the fields, a completion with its token included, is the protocol's step and keeps the invariant |
| `WebSocketClientObject.WsConnection.StageEnds` | sources/Client/WebSocketClient.cpp:282-367 | the handlers of an attempt: stale, failed, the next stage, or the upgrade |
| `WebSocketClientObject.WsConnection.ReadEnds` | sources/Client/WebSocketClient.cpp:446-471 | the handler of the read: stale, a message and the next read, or the end |
| `WebSocketClientObject.WsConnection.CloseEnds` | sources/Client/WebSocketClient.cpp:610-617 | the handler of our close: stale, half done, or finished |
| `ClientReports.EveryStepSays` | sources/Client/WebSocketClient.cpp:238-619 | what every step tells the user, exactly: the events with their codes and retry numbers, by phase and outcome |
| `ClientReports.EveryRunSays` | sources/Client/WebSocketClient.cpp:238-619 | in every run the events are exactly those of its steps, in order |
| `ClientReports.EveryMessageIsReported` | sources/Client/WebSocketClient.cpp:460-471 | in every run onMessage is called exactly once for each message read from the connection of its time |
| `ClientReports.MessageReported` | sources/Client/WebSocketClient.cpp:460-471 | a message is reported at once and the next read started, also during our own close |
| `ClientReports.Started` | sources/Client/WebSocketClient.cpp:238-250 | a URL that parses starts the first attempt, any other is an error and the end |
| `ClientReports.StageGoesOn` | sources/Client/WebSocketClient.cpp:282-367 | a stage that succeeds starts the next, the TLS handshake for TLS only, and changes nothing else |
| `ClientReports.UpgradeOpens` | sources/Client/WebSocketClient.cpp:389-405 | the upgrade opens: reported, reading, no failures, an empty queue; after a close() in the meantime it closes with 1000 at once |
| `ClientReports.UnhinderedAttempt` | sources/Client/WebSocketClient.cpp:274-406 | an attempt whose stages all succeed in order ends open, with one onOpen |
| `ClientReports.UnhinderedSend` | sources/Client/WebSocketClient.cpp:520-544 | a send() with nothing in between posts its message and reserves one place, or finds the limit reached and leaves nothing behind |
| `ClientReports.PostedMessage` | sources/Client/WebSocketClient.cpp:532-542 | a posted message of the open connection enters the queue at its end and is written at once if it was empty; any other gives its place back |
| `ClientReports.WriteGoesOn` | sources/Client/WebSocketClient.cpp:546-563 | a write that succeeds takes the front off and starts the next; one that fails leaves the queue |
| `ClientReports.NoAttemptAfterDestruction` | sources/Client/WebSocketClient.cpp:274-289 | once the client is being destroyed no attempt begins, in any run |
| `ClientReports.CloseBegins` | sources/Client/WebSocketClient.cpp:568-619 | close() by phase: the close handshake with its code, the end of an attempt, or stopped at once; a second close() does nothing |
| `ClientReports.OwnCloseEnds` | sources/Client/WebSocketClient.cpp:493-518 | when both ends of our close were seen the connection is stopped and reported with the echoed or the requested code, or 1006 |
| `Backoff.Unjittered` | sources/Client/WebSocketClient.cpp:58-61 | the loop returns the delay, and its variable stays below 2 * max(initial_delay, max_delay) when that is positive |
| `Backoff.EveryDelayIsCappedDoubling` | sources/Client/WebSocketClient.cpp:55-61 | every retry n waits min(initial * 2^(n-1), max_delay), un-jittered, if and only if initial_delay is not negative or is below max_delay |
| `Backoff.DelayIsCappedDoubling` | sources/Client/WebSocketClient.cpp:55-61 | the same for one retry: the remaining case is a retry whose doubled delay is not below the maximum |
| `Backoff.NegativeDelaysDiffer` | sources/Client/WebSocketClient.cpp:58-61 | a configuration with negative delays for which it does not |
| `Backoff.MonotoneExactly` | sources/Client/WebSocketClient.cpp:58-61 | later retries never wait less if and only if initial_delay is not negative or not below max_delay |
| `Backoff.StaysWithin` | sources/Client/WebSocketClient.cpp:63-65 | a value within 20% of the delay stays so, up to less than a millisecond toward zero, when cast to milliseconds |
| `Backoff.RetryDelay` | sources/Client/WebSocketClient.cpp:56-66 | retryDelay() for any factor in [0.8, 1.2]: within 20% of the un-jittered delay, up to the cast |
| `HttpCallProtocol.NextInv` | sources/Client/HttpClient.cpp:248-522 | one pending operation unless finished, one result if finished, the transmission history, the progress gaps and the owner of the connection stay consistent under every step |
| `HttpCallProtocol.CompletesOnce` | sources/Client/HttpClient.cpp:248-505 | in every run: a call has exactly one pending operation and no result, or no pending operation and exactly one result; every done - reported_bytes ever computed is non-negative |
| `HttpCallProtocol.FinishedForGood` | sources/Client/HttpClient.cpp:287-303 | nothing changes a finished call |
| `HttpCallProtocol.FirstAbortWins` | sources/Client/HttpClient.cpp:272-285 | the first abort is never replaced |
| `HttpCallProtocol.AbortDecides` | sources/Client/HttpClient.cpp:318-321 | any operation that fails after an abort finishes the call with that abort's code, without a retry |
| `HttpCallProtocol.SentAtMostTwice` | sources/Client/HttpClient.cpp:318-357 | in every run the request is transmitted at most twice; the second time on a new connection, after a reused one failed with no response byte, and for a method that is not idempotent (section 9.2.2 of RFC 9110) only if the failure was during the write |
| `HttpCallProtocol.RetriedExactlyWhen` | sources/Client/HttpClient.cpp:318-344 | a failing operation leads to a retry if and only if there was no abort, the error is not a limit or a timeout, the connection was reused, nothing was received, and the method is idempotent or the write was in progress |
| `HttpCallProtocol.GivenBackOnce` | sources/Client/HttpClient.cpp:496-505 | a connection goes back to the pool at most once, only with a response and without an abort; a finished call holds none |
| `HttpCallProtocol.GivenBackExactlyWhen` | sources/Client/HttpClient.cpp:476-505 | a complete response finishes the call with success and gives its connection back if and only if it may be kept alive and there was no abort |
| `HttpCallProtocol.StartsOnIdle` | sources/Client/HttpClient.cpp:348-357 | a call transmits at once on the idle connection found, otherwise it starts with the resolver |
| `HttpCallProtocol.ProgressInv` | sources/Client/HttpClient.cpp:509-522 | progress() keeps reported_bytes at or below the bytes done |
| `HttpCallObject.CallState.constructor` | sources/Client/HttpClient.cpp:231-233 | a new call satisfies the invariant |
| `HttpCallObject.CallState.Abort` | sources/Client/HttpClient.cpp:272-285 | abort() on the fields |
| `HttpCallObject.CallState.Finish` | sources/Client/HttpClient.cpp:287-303 | finish() on the fields: ignored the second time |
| `HttpCallObject.CallState.Fail` | sources/Client/HttpClient.cpp:318-344 | fail() on the fields: abort, limit, timeout, retry or error |
| `HttpCallObject.CallState.Progress` | sources/Client/HttpClient.cpp:509-522 | progress() on the fields: which calls are reported |
| `HttpCallObject.CallState.WriteHeader` | sources/Client/HttpClient.cpp:414-429 | starts a transmission |
| `HttpCallObject.CallState.WriteBody` | sources/Client/HttpClient.cpp:431-451 | the next piece, or the switch to the response |
| `HttpCallObject.CallState.ReadHeader` | sources/Client/HttpClient.cpp:455-474 | resets the progress and the parser |
| `HttpCallObject.CallState.ReadBody` | sources/Client/HttpClient.cpp:476-494 | the next piece, or the end |
| `HttpCallObject.CallState.Succeed` | sources/Client/HttpClient.cpp:496-505 | gives the connection back if allowed, then finishes |
| `HttpCallObject.CallState.Step` | sources/Client/HttpClient.cpp:248-522 | any step on the fields, a completion with its token included, is the protocol's step and keeps the invariant |
| `HttpCallObject.CallState.Connecting` | sources/Client/HttpClient.cpp:248-404 | the handlers up to the first write |
| `HttpCallObject.CallState.Uploading` | sources/Client/HttpClient.cpp:423-450 | the handlers of the writes |
| `HttpCallObject.CallState.Downloading` | sources/Client/HttpClient.cpp:465-493 | the handlers of the reads |
| `CallResults.FailureResult` | sources/Client/HttpClient.cpp:318-344 | a failed operation ends the call, unless it is retried, with the abort's reason if there was one, otherwise with "too large", "timeout" or the error itself |
| `CallResults.RefusedResult` | sources/Client/HttpClient.cpp:248-404 | a bad URL, a client that is closed, an abort found after resolving, and a host name that cannot be set each give their own error |
| `CallResults.AbortIsTaken` | sources/Client/HttpClient.cpp:272-285 | an abort is taken exactly when the call is neither finished nor aborted |
| `CallResults.OnlySuccessGivesResponse` | sources/Client/HttpClient.cpp:476-505 | a step gives a call its response if and only if it is the end of a pending read that completes it |
| `CallResults.SucceedsExactlyWhen` | sources/Client/HttpClient.cpp:248-505 | in every run a call succeeds if and only if one of its reads completed the response |
| `CallResults.ConnectsInOrder` | sources/Client/HttpClient.cpp:359-404 | resolve, connect, the handshake for TLS only, then the first transmission, on the connection made |
| `CallResults.WritesInOrder` | sources/Client/HttpClient.cpp:414-451 | the request is written until the serializer is done, counting every byte, then the response is read |
| `CallResults.ReadsInOrder` | sources/Client/HttpClient.cpp:464-494 | the response is read until it is complete, counting every byte |
| `CallResults.ReportsEnough` | sources/Client/HttpClient.cpp:509-522 | a report is made exactly when it is the last, late, or 64 KiB are new, and then less than 64 KiB are unreported |
| `CallResults.RetriedByMethod` | sources/Client/HttpClient.cpp:74-84 | a retry by method: get, head, options, put, delete and trace whenever nothing was received, any other only while it was being written; it starts over without connection, parser or bytes done |
| `CallResults.EveryStepShows` | sources/Client/HttpClient.cpp:431-522 | which progress reports every step makes: for the upload of a body and for the download, in between and when complete |
| `CallResults.EveryRunShows` | sources/Client/HttpClient.cpp:431-522 | in every run the reports are exactly those of its steps, in order |
| `CallResults.UnhinderedCall` | sources/Client/HttpClient.cpp:248-505 | a call whose operations all succeed gets its response after one transmission and gives its connection back if it may |
| `KeepAlivePool.TakesTheFreshest` | sources/Client/HttpClient.cpp:142-169 | on a list sorted by time the loop takes the last entry, the freshest, and leaves the rest; or it finds nothing, exactly when all have expired, and drains the list |
| `KeepAlivePool.EveryRunKeepsTheLists` | sources/Client/HttpClient.cpp:142-188 | in every run each list is sorted by idle_since and within max_idle_per_host, no connection is stored twice or while a call holds it, and a destroyed client stores nothing |
| `KeepAlivePool.HandedOutOnce` | sources/Client/HttpClient.cpp:142-169 | a connection taken is then held by that call and stored nowhere |
| `KeepAlivePool.PutThenTake` | sources/Client/HttpClient.cpp:171-188 | a stored connection is the next one taken, if it has not expired, and the list is as before |
| `KeepAlivePool.PutThenExpired` | sources/Client/HttpClient.cpp:142-169 | once the connection put back last has expired, nothing is found and the list is drained |
| `KeepAlivePool.FirstConnection` | sources/Client/HttpClient.cpp:142-188 | a new client keeps the connection its first call gives back and hands it to its second |
| `KeepAlivePool.GivenUp` | sources/Client/HttpClient.cpp:537-556 | a connection that a call closes is nowhere, and a destroyed client stores none |
| `KeepAlivePool.StoredExactlyWhen` | sources/Client/HttpClient.cpp:171-188 | putIdle() keeps the connection if and only if the client is alive and the list has room |
| `KeepAliveObject.KeepAlive.TakeIdle` | sources/Client/HttpClient.cpp:142-169 | takeIdle() with its loop is the model's take |
| `KeepAliveObject.KeepAlive.PutIdle` | sources/Client/HttpClient.cpp:171-188 | putIdle() is the model's put |
| `KeepAliveObject.KeepAlive.Destroy` | sources/Client/HttpClient.cpp:537-550 | the destructor closes the pool and empties it |
| `KeepAliveObject.KeepAlive.Step` | sources/Client/HttpClient.cpp:142-188 | any step of the pool is the model's step and keeps the lists |
| `WebSocketSessionProtocol.NextInv` | include/cppgate/WebSocketSession.h:155-369 | the counter, the write in flight, the read, the close and the event order stay consistent under every step |
| `WebSocketSessionProtocol.SendsOfEveryRun` | include/cppgate/WebSocketSession.h:225-308 | in every run pending equals queue plus posted sends plus calls between increment and post; the queue is within websocket_send_queue_limit; exactly the front of a non-empty queue is being written, so pop_front never meets an empty queue; messages leave in the order they were queued |
| `WebSocketSessionProtocol.EventsOfEveryRun` | include/cppgate/WebSocketContext.h:153-181 | in every run at most one onClose, with no message, error or other event after it; an opened session that has not reported its close is still reading |
| `WebSocketSessionProtocol.MessagesReported` | include/cppgate/WebSocketSession.h:212-222 | while a session is up every message is reported and the reading goes on; a callback that throws closes it with 1011 |
| `WebSocketSessionProtocol.ReadEndReports` | include/cppgate/WebSocketSession.h:187-210 | a read that ends, for whatever reason, leaves onClose as the last event |
| `WebSocketSessionProtocol.CloseIsFinal` | include/cppgate/WebSocketContext.h:167-181 | after emitClose nothing more is reported, over any run |
| `WebSocketSessionProtocol.ClosesOnce` | include/cppgate/WebSocketSession.h:357-369 | once closing, a session keeps closing with the same code, over any run |
| `WebSocketSessionProtocol.SlowConsumerIsClosed` | include/cppgate/WebSocketSession.h:290-298 | a send that meets a full queue is dropped and closes the session with 1008 |
| `WebSocketSessionObject.WebSocketSession.EmitClosed` | include/cppgate/WebSocketContext.h:167-181 | emitClose() on the fields |
| `WebSocketSessionObject.WebSocketSession.Accepted` | include/cppgate/WebSocketSession.h:155-176 | on_accept(): failed, stopping, or open |
| `WebSocketSessionObject.WebSocketSession.Read` | include/cppgate/WebSocketSession.h:187-223 | on_read(): closed, broken, aborted, a message, or a callback that threw |
| `WebSocketSessionObject.WebSocketSession.StartWrite` | include/cppgate/WebSocketSession.h:225-236 | do_write(): the front, if any |
| `WebSocketSessionObject.WebSocketSession.Written` | include/cppgate/WebSocketSession.h:238-257 | on_write(): clears the queue on failure, otherwise pops the front and goes on |
| `WebSocketSessionObject.WebSocketSession.PostedSend` | include/cppgate/WebSocketSession.h:282-307 | the posted part of send_internal() |
| `WebSocketSessionObject.WebSocketSession.PostedClose` | include/cppgate/WebSocketSession.h:359-368 | the posted part of close() |
| `WebSocketSessionObject.WebSocketSession.Step` | include/cppgate/WebSocketSession.h:155-369 | any step on the fields, a completion with its token included, is the protocol's step and keeps the invariant |
| `SessionMessages.EveryStepSays` | include/cppgate/WebSocketSession.h:155-270 | what every step tells the user, exactly: onOpen, onMessage, onError and onClose with its code |
| `SessionMessages.EveryRunSays` | include/cppgate/WebSocketSession.h:155-270 | in every run the events are exactly those of its steps, in order |
| `SessionMessages.EveryMessageIsAccountedFor` | include/cppgate/WebSocketSession.h:277-308 | in every run each message handed to the strand was written or given up with a failed write, is queued or waits for its turn, or was refused while the session was closing or its queue full |
| `SessionMessages.SentIsPosted` | include/cppgate/WebSocketSession.h:277-282 | sendText() counts its message and posts exactly that one |
| `SessionMessages.PostedMessage` | include/cppgate/WebSocketSession.h:282-307 | a posted message enters the queue at its end and is written if the queue was empty; a closing session drops it |
| `SessionMessages.WriteGoesOn` | include/cppgate/WebSocketSession.h:238-257 | a write that succeeds takes the front off and starts the next; one that fails gives the queue up |
| `SessionMessages.AcceptOpens` | include/cppgate/WebSocketSession.h:155-176 | the handshake's end: failed, open with onOpen, or open with a posted 1001 and no onOpen while stopping |
| `SessionMessages.PostedCloseBegins` | include/cppgate/WebSocketSession.h:357-369 | a posted close starts the close handshake with its code, unless the session is closing or not open |
| `SessionMessages.StreamEnds` | include/cppgate/WebSocketSession.h:259-270 | a stream that fails by itself is not open any more, and nothing else changes |
| `SessionMessages.EndReportsOnce` | include/cppgate/WebSocketSession.h:187-270 | the end of the read and of our close are each reported with their code, and whichever comes second adds nothing |
| `GracefulStop.NextInv` | include/cppgate/SessionRegistry.h:33-78 | the relation between registry, sessions still to stop and the state of every session survives every step of the registry and of any session |
| `GracefulStop.EverySessionKeepsItsInvariant` | include/cppgate/WebSocketSession.h:155-369 | each of any number of sessions, while the server stops, keeps what is proved of one session alone |
| `GracefulStop.EverySessionIsAccountedFor` | include/cppgate/SessionRegistry.h:33-78 | in every run, once stopAll() has told the sessions it collected: each session has not started, was refused, is gone or going, or was told to stop |
| `GracefulStop.EveryOpenSessionCloses` | include/cppgate/WebSocketSession.h:155-176 | in every run, after stopAll() and when its posted closes have run: a session that completed its handshake met a close with 1001 on its open stream, or its stream has ended; it then closes with 1001, or, if it was closing already when that close ran, with the code it had |
| `GracefulStop.StopClosesWithGoingAway` | include/cppgate/WebSocketSession.h:330-333 | the posted close of stop() starts the close with 1001, unless the session was already closing |
| `GracefulStop.StopDuringHandshake` | include/cppgate/WebSocketSession.h:155-169 | a stop whose close ran before the stream was open is lost, and made up for: the accept handler posts another, which closes with 1001 |
| `GracefulStop.NobodyEntersAfterStop` | include/cppgate/SessionRegistry.h:33-42 | after stopAll() began the registry only shrinks |
| `SessionLives.EntersExactlyWhen` | include/cppgate/SessionRegistry.h:33-42 | run() registers a session, or refuses it while the server stops, and touches no other |
| `SessionLives.NewSessionGoesLive` | include/cppgate/WebSocketSession.h:335-350 | a server that was never stopped takes a new session up to its handshake, if the router accepts the upgrade |
| `SessionLives.NothingIsLeftBehind` | include/cppgate/SessionRegistry.h:45-49 | in every run a session that is gone left no posted function and no operation behind |
| `SessionLives.UnreferencedGoes` | include/cppgate/WebSocketSession.h:323-327 | a session that nothing refers to goes, and its destructor takes it, and it alone, out of the registry |
| `SessionLives.StopOneTells` | include/cppgate/WebSocketSession.h:330-333 | stop() posts a close with 1001 behind the other posts of its session and touches nobody else |
| `SessionLives.StopAllTellsEveryone` | include/cppgate/SessionRegistry.h:62-78 | the whole of stopAll(): afterwards the flag is set and every registered, living session, each once, has a close with 1001 posted |
| `SessionRegistryObject.SessionRegistry.Add` | include/cppgate/SessionRegistry.h:33-42 | refused exactly when stopping; otherwise registered |
| `SessionRegistryObject.SessionRegistry.Remove` | include/cppgate/SessionRegistry.h:45-49 | exactly that session goes |
| `SessionRegistryObject.SessionRegistry.Collect` | include/cppgate/SessionRegistry.h:66-73 | the loop under the lock collects each registered, living session once and no other |
| `SessionRegistryObject.SessionRegistry.StopAll` | include/cppgate/SessionRegistry.h:62-78 | each registered, living session gets exactly one close with 1001, the others none |
| `TrustedProxies.CanonicalIsPrefix` | sources/Core/TrustedProxies.cpp:90-98 | comparing canonical networks is comparing the first prefix-length bits (section 3.1 of RFC 4632) |
| `TrustedProxies.SplitThenJoin` | sources/Core/TrustedProxies.cpp:119-128 | rejoining the pieces gives the header back, and no piece has a comma |
| `TrustedProxies.JoinThenSplit` | sources/Core/TrustedProxies.cpp:119-128 | splitting joined pieces gives the same pieces: the splitting is the only one |
| `TrustedProxies.OneClient` | sources/Core/TrustedProxies.cpp:131-151 | the scan from the right returns the client as declared (the rightmost hop that is garbage or untrusted decides: itself if it is an address, else its right neighbour or the peer; if there is none, the leftmost hop), and nothing else meets the declaration |
| `TrustedProxies.LengthsAreRead` | sources/Core/TrustedProxies.cpp:65-71 | the prefix length of a network is the number that was written, for every number of up to three digits |
| `TrustedProxies.LeftIsIgnored` | sources/Core/TrustedProxies.cpp:131-151 | what stands left of a deciding hop never matters |
| `TrustedProxies.ForgedHeadersAreIgnored` | sources/Core/TrustedProxies.cpp:114-151 | extra X-Forwarded-For headers in front do not change the result of resolve() |
| `TrustedProxies.ForgedPrefixIsIgnored` | sources/Core/TrustedProxies.cpp:114-151 | headers in front, and text in front within the header that our first proxy extended, with further headers after it, do not change the result of resolve() |
| `TrustedProxies.UntrustedPeerIsItself` | sources/Core/TrustedProxies.cpp:110-112 | a peer that is not one of our proxies is its own client, whatever the headers say |
| `ProxyAnswers.ResolvedExactly` | sources/Core/TrustedProxies.cpp:104-161 | resolve() by its cases: no address, an untrusted peer, the X-Forwarded-For client by its definition, X-Real-IP, the peer |
| `ProxyAnswers.ClientExists` | sources/Core/TrustedProxies.cpp:131-151 | there is always exactly one such client |
| `ProxyAnswers.DecidingHop` | sources/Core/TrustedProxies.cpp:131-151 | in terms of the texts: the first hop from the right that is not one of our proxies is the client if it is an address; if it is garbage, its right neighbour or the peer is |
| `ProxyAnswers.AllHopsOurs` | sources/Core/TrustedProxies.cpp:149-150 | if every hop is one of our proxies the client is the leftmost |
| `ProxyAnswers.TrustOfOne` | sources/Core/TrustedProxies.cpp:84-102 | one network trusts exactly the addresses of its family that share its first bits |
| `ProxyAnswers.TrustOfBoth` | sources/Core/TrustedProxies.cpp:84-102 | no network trusts nobody, and two lists trust whom either trusts |
| `ProxyAnswers.NormalizeUnmaps` | sources/Core/TrustedProxies.cpp:19-24 | an IPv4-mapped IPv6 address becomes the IPv4 address of its last 32 bits |
| `ProxyAnswers.OnlyMappedChange` | sources/Core/TrustedProxies.cpp:19-24 | no other address changes |
| `ProxyAnswers.TrimIsTheMiddle` | sources/Core/TrustedProxies.cpp:10-17 | trim() removes all blanks and tabs at both ends and nothing else |
| `ProxyAnswers.BracketedHost` | sources/Core/TrustedProxies.cpp:35-42 | "[host]", with or without a port, names the host |
| `ProxyAnswers.OpenBracket` | sources/Core/TrustedProxies.cpp:38-40 | a bracket that is not closed is garbage |
| `ProxyAnswers.HostAndPort` | sources/Core/TrustedProxies.cpp:43-47 | "host:port" with one colon names the host |
| `ProxyAnswers.PlainHost` | sources/Core/TrustedProxies.cpp:43-49 | a text without bracket and with no colon or several names itself |
| `ProxyAnswers.QuotedHost` | sources/Core/TrustedProxies.cpp:32-33 | quotes around it make no difference |
| `ProxyAnswers.BlanksIgnored` | sources/Core/TrustedProxies.cpp:30-30 | nor do blanks |
| `ProxyAnswers.NetworkText` | sources/Core/TrustedProxies.cpp:57-82 | "address/length" is that network if the length fits the family, and an address alone is the network of itself |
| `TrustedProxiesObject.TrimText` | sources/Core/TrustedProxies.cpp:10-17 | the two loops remove exactly the blanks at both ends |
| `TrustedProxiesObject.Proxies.Add` | sources/Core/TrustedProxies.cpp:57-82 | a text with a bad address, a bad prefix or a prefix that is too long is refused and nothing changes; otherwise exactly the addresses that share the first prefix bits become trusted as well |
| `TrustedProxiesObject.Proxies.Contains` | sources/Core/TrustedProxies.cpp:84-102 | true exactly for an address in one of the networks of its family |
| `TrustedProxiesObject.Proxies.SplitInto` | sources/Core/TrustedProxies.cpp:119-128 | the loop appends the pieces of one header value; it terminates |
| `TrustedProxiesObject.Proxies.CollectHops` | sources/Core/TrustedProxies.cpp:114-129 | the pieces of all the headers, in order |
| `TrustedProxiesObject.Proxies.ScanHops` | sources/Core/TrustedProxies.cpp:134-150 | the loop over the hops is the scan |
| `TrustedProxiesObject.Proxies.Resolve` | sources/Core/TrustedProxies.cpp:104-161 | resolve() as a whole |
| `RouteTable.DispatchPreserved` | sources/Core/Router.cpp:197-264 | a search in the flat table finds what walking the nested groups finds: the first declared route that compiles at every level and is wanted, with the prefixes concatenated and the outer middlewares before the inner ones |
| `RouteTable.TableMeansTree` | sources/Core/Router.cpp:197-224 | the same for a part of the tree inside any groups |
| `RouteTable.NestedGroupsMerge` | sources/Core/Router.cpp:197-224 | two nested groups are one group with both prefixes and the outer-then-inner middlewares if and only if no route is lost because it compiles with both prefixes but not with the inner one alone |
| `RouteTable.NestingDiffers` | sources/Core/Router.cpp:11-57 | two groups and a route for which they differ: with prefixes "/{" and "/{x:(}" and path "/a", nesting loses the route and merging keeps it |
| `RouteDispatch.ShortestPrefix` | sources/Core/Router.cpp:101-127 | a chain runs its shortest non-empty prefix that leaves a response or throws, or all of itself |
| `RouteDispatch.RouteRunsItsChain` | sources/Core/Router.cpp:99-128 | a route runs the shortest prefix of its HTTP middlewares before, its handler, and its HTTP middlewares after |
| `RouteDispatch.FlatteningPreservesDispatch` | sources/Core/Router.cpp:287-345 | dispatch on the flat table equals dispatch on the nested groups, error handlers included |
| `RouteDispatch.DispatchChooses` | sources/Core/Router.cpp:299-337 | the first HTTP route with path and method is run; with none, 405 exactly when some HTTP route has the path, otherwise 404 |
| `RouteDispatch.EveryRequestIsAnswered` | sources/Core/Router.cpp:266-345 | whatever middlewares and handlers do, every request gets a response and no exception escapes, if the three error handlers respond |
| `RouteDispatch.RoutedRequestIsAnswered` | sources/Core/Router.cpp:308-329 | a request with a matching route is answered if only the internal error handler responds |
| `RouteDispatch.GuardsPassExactly` | sources/Core/Router.cpp:130-142 | the chain accepts exactly when every WebSocket middleware, asked in turn, accepts |
| `RouteDispatch.AdmittedExactly` | sources/Core/Router.cpp:347-407 | an upgrade is admitted on route i if and only if the target is valid, i is the first WebSocket route with the path, and all its middlewares accept |
| `RouterAnswers.GlobalsRunFirst` | sources/Core/Router.cpp:266-285 | the client address is stored, then the shortest prefix of the global middlewares that ends it runs: a response ends the request, an exception gets the internal error handler, otherwise all ran and the request is dispatched |
| `RouterAnswers.BadTarget` | sources/Core/Router.cpp:287-344 | a target that is no URL gets the internal error handler |
| `RouterAnswers.RouteChosen` | sources/Core/Router.cpp:299-337 | in terms of the table: the first HTTP route with path and method is run; with none, 405 if some HTTP route has the path, otherwise 404 |
| `RouterAnswers.ResponseStands` | sources/Core/Router.cpp:308-329 | the internal error handler runs after a route exactly when it threw or left no response |
| `RouterAnswers.HttpOfBoth` | sources/Core/Router.cpp:101-109 | the HTTP handlers of two lists are those of the first and then those of the second |
| `RouterAnswers.KindsKept` | sources/Core/Router.cpp:101-137 | a chain keeps exactly the handlers of its kind |
| `RouterAnswers.AdmittedOnFirst` | sources/Core/Router.cpp:367-402 | an upgrade is admitted only on the first WebSocket route that matches |
| `RouterAnswers.FirstRefusal` | sources/Core/Router.cpp:130-142 | the first middleware that does not pass ends the upgrade |
| `RouterAnswers.NoUpgradeRoute` | sources/Core/Router.cpp:347-407 | an upgrade with a bad target gets the internal error handler, one without a route the not-found handler |
| `RouterAnswers.RefusedUpgrade` | sources/Core/Router.cpp:380-400 | a refused upgrade gets the rejection, one whose middleware threw the internal error handler |
| `RouterObject.Router.AddRoute` | sources/Core/Router.cpp:226-264 | appends the route exactly when its pattern compiles |
| `RouterObject.Router.MakeGroup` | sources/Core/Router.cpp:197-224 | a group with its subrouter appends what the flattening says |
| `RouterObject.Router.ReAdd` | sources/Core/Router.cpp:204-223 | the loop of group() |
| `RouterObject.Router.Middlewares` | sources/Core/Router.cpp:101-109 | the loop over one chain |
| `RouterObject.Router.RunRoute` | sources/Core/Router.cpp:99-128 | the call operator of a route |
| `RouterObject.Router.Search` | sources/Core/Router.cpp:299-337 | the loop over the table is the declared choice |
| `RouterObject.Router.RouteRequest` | sources/Core/Router.cpp:266-345 | route() as a whole: the client address, global middlewares, target, search, path parameters |
| `RouterObject.Router.Guards` | sources/Core/Router.cpp:130-142 | the loop over the middlewares of an upgrade |
| `RouterObject.Router.UpgradeRequest` | sources/Core/Router.cpp:347-407 | upgrade() as a whole: the client address, target, search, path parameters, middlewares |

## Left out

- 64-bit wrap-around of tickets, sequences and sizes, and of the unsigned counters `generation` and `failures`: they are unbounded numbers.
- Memory orders: the atomic accesses of the ring buffer and of `send` interleave one after the other.
- The release of the ring buffer's memory, and `create()`, which is the constructor again.
- Liveness: that a waiting producer, a queued waiter or a pending operation ever gets its turn. The models say what holds in every state, and `NeverStuck` and `CompletesOnce` that something is always pending. A push() or send() whose list of what others do ends too early is not done.
- The Pooled class: handles are a map from names to connections, with release, discard and move as actions; a moved-from handle is a name that is no longer in the map.
- The time checks of checkOut(): whether a connection has expired or is broken is arbitrary, except that it can only expire if above_min was read.
- acquire() and warmUp() as single blocking calls: they are rounds under the lock and work outside it, because other threads come in between. The condition variable's spurious wake-ups do nothing in the source and are no steps.
- The delivery of callbacks to another executor and their exceptions: an event is recorded when the handler emits it. A callback acts only through posted sends and closes.
- The accept operation of the server session opens the stream and runs its handler in one turn of the strand.
- The bytes of messages, the compression and ping options, sub-protocols and the upgrade headers.
- Backoff.RetryDelay: exact arithmetic and any factor in [0.8, 1.2]; the random distribution and the rounding of double are not modelled.
- The clock of progress(): whether progress_time has passed is arbitrary; the byte threshold is modelled. A report has its direction and bytes done, not the total.
- The strand handlers of HttpSession and Listener, and whether stop() ends plain HTTP sessions promptly.
- Parsing and printing of addresses by Asio: two functions of which only the well-formedness of the result is assumed.
- Compiling and matching of route patterns by RE2: two predicates on text. Which path parameters a pattern stores is a function, applied for the chosen route; those that a 404 or 405 handler sees, left over from routes that were tried, are not modelled.
- The route handlers that run when a WebSocket opens (Route::open), and the status and body of a refused upgrade, which are one function on the state. So is the resolved client address, which TrustedProxies models on its own.
- Cors, logging, TLS, DNS, certificates, and HTTP parsing and serialization.
