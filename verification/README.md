# DanmakuX: a verified model of the server's core

DanmakuX is a small real-time chat server. Clients connect over WebSocket to a room, send short messages, and see the
messages of their room. Redis carries messages between nodes and holds the rate-limit counters; a worker stores
messages in a database in batches. This project models the four parts where interleavings or time make the code
hard to judge by reading, and proves what they promise.

* **The limiter** (`Base64Url`, `LimiterKeys`, `FixedWindow`, `WindowHistory`, `RateBound`, `RateLimiter`,
  `CheckLimit`, `DuplicateKeys`). Redis is a class holding a store of counters with deadlines; the Lua script is a
  method with the script's two loops, proved equal to the function `StoreAfter`/`Reply`. A run is any sequence of
  calls at non-decreasing times. The counters are shown to be the sizes of plain lists of accepted times, and any n windows
  of time see at most (n + 1) * limit - 1 accepted requests per user, address and room; a worst run reaches this.
* **The node** (`System`, `SystemInvariant`, `SystemTheorems`, `ShutdownProgress`, `Scenarios`, `EndToEnd`). One transition system holds any
  number of connections, each with a program counter and a queue for its write loop, together with the rooms'
  channels, the persistence worker, `Handler.Shutdown` and `MessageService.Close`. A step is one critical section or
  one other visible action, so every interleaving the locks allow is a run. `ReleaseRoomSubscription` and `unregisterClient` keep their gap between leaving the lock and
  unsubscribing, or calling `Done`. One inductive invariant is kept by all of the steps; the theorems follow from it. `Scenarios` shows the other side,
  that the node can do its work from every state that serves, and `EndToEnd` follows a message into the history.
* **The objects** (`Broker`, `RoomHub`, `Lifecycle`, `Subscriptions`, `Persistence`, `MessageService`). The source's
  structs are classes here, with the same fields; each method is proved to do to the object exactly what the function
  does that the transition system uses for that step. `MessageService.CallIsRun` shows that a whole call of `Send`
  with nothing in between is a run of the transition system with the same effect. The worker appends to and resets a
  real array.
* **The history** (`History`). The cursor query, and reading a whole room with it page by page.

## Findings

* Paging by time loses rows when a page ends between two rows of the same stored time. `PagingIsComplete` gives the
  exact condition under which paging is complete, and `TieIsSkipped` a concrete loss.
* The three keys of one call share a hash tag, the part that Redis Cluster hashes, if and only if the room is not empty
  (`SharedHashTag`). The limiter itself does not check this; `ServeWS` does.
* The script relies on its caller for distinct keys: a call keeps a key's limit from every store, or only from every
  store that runs lead to, if and only if it names the key once (`LimitKeptIffNamedOnce`). `checkLimit` always names
  three different ones (`RulesWellFormed`).
* A configuration with a count that is not positive, or a window under a millisecond, makes every request that reaches
  the limiter fail with an error, whoever sends it (`RulesWellFormed`, both directions).

## Model

| member | source | states |
|---|---|---|
| RateBound.SlidingBound | internal/limiter/limiter.go:49-72 | In every run that uses a key with one limit and window, any n windows of time see at most (n + 1) * limit - 1 accepted calls that name it. |
| RateBound.BoundIsReached | internal/limiter/limiter.go:49-72 | The bound is tight for every limit, every n and every window longer than one tick: the worst run is a legal run and reaches it. |
| RateBound.OneTickBound | internal/limiter/limiter.go:49-72 | The remaining case: windows of one tick admit at most n * limit in n ticks. |
| CheckLimit.QuotaHolds | internal/service/message_service.go:301-341 | In every run of requests by any senders, in any n windows of the configuration: at most (n + 1) * userCount - 1 requests pass of one user in a room, (n + 1) * ipCount - 1 from one address in a room, and (n + 1) * roomCount - 1 in a room, counted over the requests themselves. |
| CheckLimit.RefusalIsExplained | internal/service/message_service.go:326-340 | In every run each refusal is a rate-limit error, never the default branch. With scope "user", exactly userCount requests of this user in this room have passed in the window that one of them opened and that is still open, and the waiting time is what is left of it; the same for "ip" and "room" with their own counts and windows. |
| WindowHistory.AcceptsIffRoom | internal/limiter/limiter.go:50-71 | Refinement: a call is accepted if and only if the list of accepted times in every key's open window is shorter than that key's limit. |
| WindowHistory.RefusalNamesFirstFull | internal/limiter/limiter.go:50-62 | A refusal names the first rule whose window is full, reports the time to the end of that window, and leaves the whole store as it was. |
| WindowHistory.CounterIsWindowSize | internal/limiter/limiter.go:50-69 | After any run, GET on a key is the number of requests accepted in the window that the first of them opened. |
| WindowHistory.HistoryIsLog | internal/limiter/limiter.go:64-69 | The windows, put together, are exactly the accepted calls of the key, each once and in order. |
| WindowHistory.FenceNeverMoves | internal/limiter/limiter.go:54-69 | From any store, a deadline once set is not moved by any later calls, whatever keys, limits and windows they use. |
| WindowHistory.RefusalEnds | internal/limiter/limiter.go:54-60 | From any store, counters without a deadline included, the refusing key is gone when the reported time has passed, whatever calls come in between, so none refuses forever. |
| DuplicateKeys.LimitKeptIffNamedOnce | internal/limiter/limiter.go:49-72 | The exact condition on distinct keys: with positive limits and windows and one limit for the key, a call leaves the counter within the limit in every store that accepts it if and only if it names the key once; the same holds for the stores that runs lead to, so a duplicate always has a run in which it overshoots. |
| DuplicateKeys.DuplicateKeyOvershoots | internal/limiter/limiter.go:64-69 | The smallest witness: limit 1, empty store, one key named twice, counter at 2. |
| CheckLimit.RulesWellFormed | internal/service/message_service.go:302-322 | The rules pass validation if and only if the configuration is usable, and then have positive quotas and three different keys for any sender. |
| LimiterKeys.KeysSeparate | internal/service/message_service.go:302-318 | Two keys are equal if and only if room, scope and identity are, for arbitrary byte strings. |
| LimiterKeys.SharedHashTag | internal/service/message_service.go:302-318 | Different keys of one room share the hash tag if and only if the room is not empty. |
| Base64Url.RoundTrip | internal/service/message_service.go:302 | Decoding undoes the unpadded base64url encoding (RFC 4648, sections 3.2 and 5) of every byte string, whatever its length modulo 3. |
| Base64Url.GroupKeepsBits | internal/service/message_service.go:302 | The characters of a group hold the bits of its bytes as one number, padded with zero bits (section 3.2 of RFC 4648), against which round trips alone could not tell another coding. |
| Base64Url.AlphabetInOrder | internal/service/message_service.go:302 | The characters are those of the URL-safe alphabet in its order (section 5 of RFC 4648). |
| RateLimiter.RepliesDecode | internal/limiter/limiter.go:95-118 | For valid rules no reply of the script yields the invalid-result error; the decision allows exactly when the script accepted, and otherwise names the scope of the first full rule. |
| RateLimiter.DecodeAccepts | internal/limiter/limiter.go:95-111 | Anything but three integers that mean "allowed" or name a rule is the invalid-result error, never a decision. |
| RateLimiter.RetryAfterWithinWindow | internal/limiter/limiter.go:112-118 | If no counter lasts longer than its rule's window, the waiting time is the script's milliseconds without any 64-bit wrap-around, positive and at most the refusing rule's window; CheckLimit.RefusalIsExplained shows that every run meets the condition. |
| SystemInvariant.InvKept | internal/ws/handler.go:97-127 | Each step that any connection, the worker, Shutdown or Close can take keeps the invariant of the whole node. |
| SystemInvariant.InvAlways | internal/ws/handler.go:97-127 | The invariant holds after every run from the start, for any number of connections and any interleaving. |
| SystemTheorems.RoomIsolation | internal/room/hub.go:23-77 | In every reachable state each client sits only in the set of its own room, no set is empty, what the write loop took and the at most 256 messages that wait for it are exactly what the queue accepted, in order, and every chat message among them has valid content and was published for the room of this very client. |
| SystemTheorems.DeliveryIsExact | internal/room/hub.go:54-70 | One delivery puts the message at the end of the queue of exactly the clients that joined the room, have not left and have fewer than 256 messages waiting, and changes nothing else. |
| SystemTheorems.DeliveryIsPossible | internal/broker/redis_pubsub.go:45-74 | Until the service is closed, each message on a joined client's channel can be delivered to it. |
| SystemTheorems.RoomsAreSubscribed | internal/service/message_service.go:105-167 | Hub members are always the connections that joined and have not left. Until the service is closed they are at most refs, refs are exactly the connections between Acquire and Release, an entry exists if and only if there are any, its subscription is for this room and not being ended; so every joined client's room is subscribed. |
| SystemTheorems.SubscriptionAccounting | internal/service/message_service.go:105-167 | Live subscriptions of a room = its entry, plus releases that have not unsubscribed yet, plus the acquire under the lock that opened one and has not recorded its entry, over all interleavings. |
| SystemTheorems.ClosersAreExact | internal/broker/redis_pubsub.go:76-112 | In every reachable state each registered subscription is in exactly one place: it has a closer, a handler or Close is about to close it, or it was closed exactly once. |
| SystemTheorems.CloseEndsSubscriptions | internal/service/message_service.go:353-363 | Once Close has closed the broker, every subscription registered before is closed exactly once, in that and every later state, except while a handler is about to close it. |
| SystemTheorems.MessagesAreConserved | internal/service/message_service.go:223-293 | With no Send under way: calls = invalid + limited + limiter errors + accepted, accepted = published + publish errors, published = queued + dropped, limited = user + ip + room; each enqueued record has the id, room, user, content and time of a published message, content of 1 to 200 bytes, and is enqueued no more often than it was published. |
| SystemTheorems.CountersCount | internal/metrics/metrics.go:43-89 | In every run each counter grows by exactly the number of its events, each refusal in the scope that refused, and each failed write once. |
| SystemTheorems.PutIsExact | internal/service/message_service.go:259-293 | In every reachable state, a record that reaches the queue is put at its end with the message's own fields and counted as queued if fewer than 4096 are waiting; otherwise it is counted as dropped and nothing else changes. |
| SystemTheorems.PersistenceConserves | internal/service/message_service.go:171-217 | In every reachable state: slices handed to SaveBatch, then the unhanded batch, then the queue of at most 4096, are exactly what was enqueued, in order; each slice has 1 to batchSize records, the batch never outgrows the buffer, and batchSize is the configured one, or 50 if that is not positive. |
| SystemTheorems.OnlyTicksAreShort | internal/service/message_service.go:203-217 | In every run the slices shorter than the batch size are at most as many as the ticks, and one for the last flush: otherwise only full batches are written. |
| SystemTheorems.CloseDrains | internal/service/message_service.go:344-351 | Once Close is past the worker's end, queue and batch are empty, everything enqueued was handed over exactly once in order, and the pipeline never changes again. |
| SystemTheorems.WorkerExitsOnTime | internal/service/message_service.go:203-217 | After the channel is closed the worker exits after exactly one receive per waiting record and one more, in every interleaving with ticks, writes and everything else. |
| SystemTheorems.NeverPanics | internal/ws/handler.go:241-261 | No run sends on a closed channel, closes it twice, or drives the WaitGroup below zero; its count is the registered clients plus those about to call Done. |
| SystemTheorems.NoAddAfterClosing | internal/ws/handler.go:208-250 | Once closing is set it stays set, and in every later state the client set and the WaitGroup have only shrunk. |
| SystemTheorems.CleanShutdown | cmd/danmakux/main.go:112-120 | If Shutdown has returned nil before the service is closed, then now and in every later state clients, rooms, entries and live subscriptions are empty, the gauge is 0, no Send runs, and no counter changes; so the Close that follows drops no message. |
| EndToEnd.EverythingIsStored | internal/service/message_service.go:243-265 | When Close is past the worker's end, without a dropped message or a failed write, the database holds the record of each published message exactly as often as it was published, and nothing else. |
| EndToEnd.PublishedIsFound | internal/service/message_service.go:243-298 | Then the history of a message's room, and of no other room, has a row with its id, room, user, content and time, for every cursor after it. |
| ShutdownProgress.SnapshotSuffices | internal/ws/handler.go:208-224 | When the snapshot has been worked off, every client that is still registered has been closed. |
| ShutdownProgress.MeasureFalls | internal/ws/handler.go:97-127 | While Shutdown waits, every step of an awaited handler lowers one measure over all connections, no step of anybody raises it, and nobody is missed later. |
| ShutdownProgress.BoundedWait | internal/ws/handler.go:221-232 | In every run from there on the awaited handlers take at most as many steps as the measure says. |
| ShutdownProgress.NoDeadlock | internal/ws/handler.go:221-232 | While the service is open and a handler is awaited, some awaited handler has a step to take. |
| ShutdownProgress.WaitCanEnd | internal/ws/handler.go:221-232 | Steps of handlers alone lead to a WaitGroup of zero. |
| ShutdownProgress.CloseCanEnd | internal/service/message_service.go:344-366 | After a clean shutdown, from any point of Close, its own steps and the worker's lead to its end, with every enqueued record handed over exactly once and in order. |
| Persistence.StoredIs | internal/service/message_service.go:191-199 | A record is in the database if and only if a successful write had it. |
| Scenarios.AnyoneCanJoin | internal/ws/handler.go:97-118 | From every state that serves, a newcomer can come to be served in any room, and no other connection, message or record changes. |
| Scenarios.FailedJoinLeavesNoTrace | internal/ws/handler.go:97-107 | A newcomer whose subscription fails ends closed, and everything else in the node is as if it had never come. |
| Scenarios.AnyoneCanChat | internal/ws/handler.go:153-165 | A served client can publish a message with its own room and user, which is enqueued with the same fields and can be delivered to its room. |
| Scenarios.ShutdownCanEnd | cmd/danmakux/main.go:112-120 | From every reachable state of a running node, whatever is under way, Shutdown can return and Close can end, with everything enqueued handed over and nothing left. |
| MessageService.CallIsRun | internal/service/message_service.go:223-293 | Every outcome of a call of Send that nothing interrupts is a run of the transition system with the same effect on counters, published messages and queue. |
| History.PagingIsComplete | internal/repository/danmaku.go:36-51 | Asking again with the last row's time until a page is empty returns every row before the first cursor exactly once, newest first, if and only if no page ends between two rows of the same time. |
| History.PageIs | internal/repository/danmaku.go:36-51 | One query, with n the limit if it is from 1 to 100 and else 50, and cut the cursor or else 24 hours from now: the number of rows is the smaller of n and the number of the room's rows before the cut, each is such a row and no more often than in the table, newest first, and no such row that was left out is newer than one returned. |
| History.ReadsWholeHistory | internal/api/router.go:69-94 | With distinct stored times, calling again with the last row's time until nothing comes back returns each of the room's rows before the first cursor exactly as often as the table holds it and no other row, newest first, for every requested limit. |
| History.SoughtIs | internal/repository/danmaku.go:44-49 | A row is returned as often as the table holds it when it is in the room and before the cursor, never otherwise, and newest first. |
| History.TieIsSkipped | internal/repository/danmaku.go:45-49 | Three rows of one time and pages of two: the third row is never returned. |
| FixedWindow.Redis.FixedWindowScript | internal/limiter/limiter.go:49-72 | The two loops compute exactly the specified store and reply: check all rules first, count only when all have room. |
| RateLimiter.Allow | internal/limiter/limiter.go:75-119 | A request is allowed if and only if there are rules, all proper, Redis answers and no counter has reached its limit; a refusal names the scope of the first that has; improper rules give the scope of the first one and a fault its error; and what each case does to the store. |
| CheckLimit.CheckLimit | internal/service/message_service.go:301-341 | No refusal if and only if the configuration is usable, Redis answers, and the three counters, under their literal keys, are below userCount, ipCount and roomCount; otherwise the first of the three by name with its reason, the first wrong rule, or the fault. |
| MessageService.MessageService.Send | internal/service/message_service.go:223-267 | It succeeds if and only if the content has 1 to 200 bytes, the limiter admits the sender and the broker takes the message; only then is a message published, with the sender's fields; its record has the same fields; every outcome's result and counters, each refusal in its own scope. |
| MessageService.MessageService.EnqueuePersistence | internal/service/message_service.go:269-293 | A record with the message's id, room, user, content and time joins the end of the queue and is counted as queued if and only if the service is open and fewer than 4096 are waiting; otherwise it is counted as dropped and nothing else changes. |
| MessageService.MessageService.Close | internal/service/message_service.go:344-366 | The first call hands over everything that is waiting and closes every subscription but those that somebody else is about to close, whatever the ticks and write failures; a second call changes nothing. |
| Persistence.Pipeline.TrySend | internal/service/message_service.go:281-292 | The record is at the end of the queue if and only if fewer than 4096 were waiting; else nothing changes. |
| Persistence.Pipeline.OnReceive | internal/service/message_service.go:207-215 | The oldest record joins the batch in the same array and exactly a full batch is handed over; on the closed and empty channel what is left is handed over for the last time. |
| Persistence.Pipeline.RunToExit | internal/service/message_service.go:203-217 | The loop after the channel is closed ends for every choice of ticks and write outcomes, after exactly one receive per waiting record and one more, with everything handed over. |
| Subscriptions.RoomSubscriptions.AcquireRoomSubscription | internal/service/message_service.go:105-142 | The first reference subscribes, later ones only count, and a failed subscription changes nothing. |
| Subscriptions.RoomSubscriptions.ReleaseRoomSubscription | internal/service/message_service.go:145-167 | Gives one reference back; the last one removes the entry and closes its subscription; without an entry nothing happens. |
| Broker.RedisPubSubBroker.Subscribe | internal/broker/redis_pubsub.go:45-97 | Registers the next number when Redis confirms, and leaves no trace when it does not. |
| Broker.RedisPubSubBroker.Unsubscribe | internal/broker/redis_pubsub.go:77-97 | However often it is called, the underlying close has run exactly once. |
| Broker.RedisPubSubBroker.Close | internal/broker/redis_pubsub.go:101-113 | The loop closes exactly those that have a closer and were not closed before; afterwards each registered subscription is pending or has been closed exactly once. |
| Lifecycle.Handler.RegisterClient | internal/ws/handler.go:241-250 | Registers and adds to the WaitGroup exactly when the handler is not closing. |
| Lifecycle.Handler.UnregisterClient | internal/ws/handler.go:252-261 | Forgets the client and calls Done exactly when it was registered. |
| Lifecycle.Handler.BeginShutdown | internal/ws/handler.go:209-215 | Sets closing, and the snapshot lists each registered client exactly once. |
| RoomHub.Hub.Join | internal/room/hub.go:23-34 | The client is in its own room's set, every other room is as before, and the result is the room's size. |
| RoomHub.Hub.Leave | internal/room/hub.go:37-51 | The client is out of its room, an emptied room is removed, and the result is the room's size. |
| RoomHub.Hub.BroadcastLocal | internal/room/hub.go:54-70 | The message joins the end of the queue of exactly the members with fewer than 256 messages waiting, all other queues are as before, and the result is the number of the former. |
| RoomHub.Hub.Deliver | internal/service/message_service.go:115-131 | Given a message from the room's channel: the same, delivered + dropped = members, and every mailbox in order stays so and keeps to its own room. |
| RoomHub.Client.Enqueue | internal/room/client.go:48-55 | Succeeds if and only if fewer than 256 messages wait; then the message is at the end of the queue, else the queue is as before. |

## Left out

- Redis expiry: a key is live while now < expiry. A real server may hold a key one tick longer, which only strengthens the rate bound and shifts the end of a refusal by one millisecond.
- Redis as a shared server: other writers, eviction, a clock that runs backwards, and nodes with different limits are assumed away in the statements about runs; Lua's numbers are exact integers here, as they are below 2^53.
- Outside calls: Publish, Subscribe, SaveBatch and the limiter may fail at any time; which error they return, and the first error that the two Close functions report, are not modelled.
- Values from outside: message identifiers, times and trimmed content are parameters; strings.TrimSpace and uuid are not modelled.
- Subscription identifiers: the strings "sub-N" are the numbers N, and the 64-bit counter behind them does not wrap around.
- RoomHub.Hub.Deliver: runs as one step, here and in System, while the source reads the room's size and broadcasts under separate locks, so that the drop metric is exact only when nobody joins or leaves in between, and a write loop may take a message while the others are served.
- RateLimiter.Allow: runs the script at most once per call. The Redis client is built with its default retries, so a call whose reply is lost may run the script again and charge the request more than once. The statements about runs are about script executions, so the bounds on accepted ones hold all the same.
- Broker.RedisPubSubBroker.Close: runs as one step in System; the source holds the broker's lock throughout, but subscriptions that were pending before may be closed meanwhile.
- Messages on the channels: those of other nodes, and of a publish whose error came after it took effect, may be put there at any time, with valid content because the other nodes run the same code; Redis is allowed to deliver them late and repeatedly.
- Delivery: the code promises clients neither exactly-once nor ordered delivery (a new subscription may overlap an old one, a stopped subscriber may still handle a message, full queues drop), so nothing is claimed.
- Subscriptions.RoomSubscriptions.ReleaseRoomSubscription: the object's method runs without interruption; the gap between leaving the lock and unsubscribing is in System.
- MessageService.MessageService.Send: the object's method runs without interruption; the interleavings of many calls are in System, and CallIsRun connects the two.
- Second callers: concurrent or repeated Handler.Shutdown and MessageService.Close calls waiting on closeOnce; a worker that is not started, or started after Close; Acquire after Close; panics inside ServeWS.
- SystemTheorems.CleanShutdown: assumes that Shutdown returned nil; for one that timed out only the general invariant is proved.
- ShutdownProgress.WaitCanEnd: fairness of the Go scheduler is not modelled; proved instead are a bound on the awaited steps of every run and that one is always possible.
- ShutdownProgress.CloseCanEnd: speaks of Close after a clean shutdown, the order that the program's main function uses; a Close while handlers still hold its locks waits for them, which is not followed further.
- ServeWS before registration: the checks of the shutdown flag, room and token and the upgrade are one arrival step; authentication itself is not modelled.
- The read and write loops: frames, deadlines, pings and the text of error replies are nondeterministic.
- EndToEnd.EverythingIsStored: a write that reports an error is taken to have stored nothing; one that times out after it took effect is not modelled.
- Metrics: one record holds the counters that the conservation laws need; total connections, broadcast counts and the text output are left out, and failed batches are counted in the pipeline.
- The database: the table's content is given, rows of one time come in the table's order, and the zero time is a missing cursor; SQL, migrations and writing rows are left out, and so is rounding of stored times.
- HTTP routes, tokens, JSON, configuration, load scripts and the browser page: only easy members or I/O.
