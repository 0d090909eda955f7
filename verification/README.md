# GemmaNet coordinator: a verified model

GemmaNet's coordinator keeps node connections and in-flight tasks in process memory and the node
table, reputation and instance lock in Redis. Everything in the process runs on one event loop, so
what can go wrong lies between two `await`s: registrations that race, a connection replaced by its
successor, a send that fails, a reply that comes late, a heartbeat whose read and write are split by
someone else's command. This project models that behaviour and proves what the code promises about
it for every run, every call sequence or every input.

Run `dafny verify dfyconfig.toml` in this directory.

## How the program is modelled

- `Coordinator` is a transition system. A state holds the connection pool, the task tracker, the
  Redis node table, every connection handler with the point it waits at, every request, the messages
  sent on each connection and the clock. An action is the code one coroutine runs between two awaits,
  or one Redis command; `IsRun` allows every interleaving. `AfterSend` is
  `src/gemmanet/coordinator/server.py:738-747`, `Finish` the handler's `finally` (811-813),
  `AdvanceHandler` the continuations of a handler that waits for Redis (747-753, 777-782, 376-379),
  `Drop`, `StartAssign`, `FinishAssign` and `AdvanceDrop` the pieces of `_drop_connection` and
  `_assign` (376-401), `Lookup` and `Offer` routing's reads and filter (`registry.py:50-61`,
  `router.py:33-38`). Account deletion is `DropNode` followed by the cleanup actions `Expire` and
  `LeaveOnline`, which also stand for entry expiry and may happen at any time.
  A request keeps its trust tier for all its assignments, so split chunks and their fallbacks are
  `AssignTo` actions like any other.
- `Safety`, `Failing`, `TrustTier`, `Routability`, `Reading`, `Routing` and `Requests` prove properties
  of its runs.
- `Tasks`, `Connections`, `Limits`, `InstanceLock` and `Reputation` keep the program's objects as
  classes whose methods change their fields in place. Each method is proved equal to a function on
  the object's value, and the properties are proved about those functions over any sequence of calls.
- `Dispatch`, `SplitTask` and `Streaming` express `_assign`, `_dispatch`, `_run_task`,
  `_run_split_task`, `wait_result` and `_stream_task` as loops. What other coroutines do meanwhile is
  an input: any calls on the tracker at any times, except that nobody else creates a task under an id
  of ours (they are fresh UUIDs). The events a coroutine waits for are the ones these calls put on its
  task.
- Connections are numbers that are never used twice. Node ids are the text that `derive_node_id`
  hashes; the UUID of section 5.5 of RFC 9562 is taken to be injective on it. Account ids contain no
  `/`. Clocks are reals that never run back, except where a lemma says so. Scores are exact rationals.
  Redis commands are atomic and do not raise; coroutines are not cancelled.

## Main results

1. **No task is stranded.** In every reachable state an unfinished tracked task's connection has a
   handler that has not ended (`Safety.NoTaskIsStranded`); once it has ended, none of its tasks is
   unfinished and none is ever added (`Safety.EndIsFinal`); and a handler can always get there by its
   own steps alone (`Failing.EndingFinishesEverything`). A connection that was replaced or dropped is
   failed once and for all (`Failing.ReplacedFailsForGood`, `Failing.DroppedFailsForGood`).
2. **Node cap.** After every step each account has at most `limit` nodes online, however many
   registrations passed the first check together (`Safety.NodeCap`); a registration is refused exactly
   when its account has that many other nodes online (`Routing.HelloIsRefusedExactly`,
   `Routing.AttachIsRefusedExactly`), and never costs a node its earlier connection
   (`Safety.RefusalLosesNothing`).
3. **Trust tiers.** Official-only work stays on official accounts' connections in every run exactly
   when the process does not start with a misleading entry in the routing set
   (`TrustTier.TrustNeverLeaks`); every registered node is found by the requests it may serve
   (`Routing.RegisteredNodeIsFound`, `Router.CandidatesExactly`), and nothing is offered that was not
   (`Requests.OfferedServed`, `Requests.ReadWasStored`).
4. **Event logs and streams.** Chunks, then at most one terminal event, within the byte limit
   (`Tasks.EventLogs`); only a task's own connection matters to it (`Tasks.OnlyOwnConnectionCounts`);
   deltas, then one final item, one outcome, the task released (`Streaming.StreamTask`); never more
   text than the limit (`Streaming.RelayIsBounded`); and from the node's handler to the consumer the
   stream is what the handler made, a success or a failure (`NodeStream.StreamEndToEnd`).
5. **Refinements.** The limiter that forgets answers by the count of all calls it ever allowed
   (`Limits.SlidingWindowLimiter.Allow`); splitting and merging keep the text, and merged answers can
   be told apart again (`Splitter.SplitContent`, `Splitter.SplitExactly`, `Splitter.MergeSplitsBack`);
   params checking is exact (`Limits.CheckIsExact`).

### Where the code does less than it says

Each of these is proved with the exact condition under which the promise holds.

- `server.py:779-782` says a heartbeat puts a lost node back "so routing can find it again". When a
  node reconnects while its previous connection is still being unregistered, the old `srem` removes
  the new registration from `gn:online_nodes`, the entry itself stays, and no heartbeat brings the node
  back while it stays connected (`Routability.ReconnectCanLoseNode`). A connected node can rely on
  being found exactly when it is in the routing set and no unregister of it is still under way
  (`Routability.RoutableWhileLive`); it is lost for good exactly when it is out of the set, nobody is
  adding it, and no heartbeat can find its entry missing (`Routability.LostWhileLive`).
- `reputation.py:71-75` says a task is rated only once. The marker expires an hour after it was set,
  so a call that looks the task up just before its record expires and sets the marker just after the
  first marker expired rates again: once exactly when lookup and marker fall on one instant
  (`Rating.RateOnce`).
- The trust tier of an entry that an earlier process left in Redis is believed until the node has
  overwritten it (`TrustTier.LeftoverLeaks`; the exact condition is `TrustTier.TrustNeverLeaks`).
- The instance lock excludes exactly as long as Redis keeps the key (`InstanceLock.LeasesExclude`),
  and `acquire` outlasts a crashed predecessor exactly when replies are quick enough
  (`InstanceLock.BoundedWait`).
- The age limit of `server.py:264-267` spares waiting streams exactly when the stream's body starts
  within `TASK_TIMEOUT` of the task's creation (`Eviction.EvictionIsSafe`).
- The comment at `reputation.py:106` gives the full speed score for responses under one second; the
  code gives it exactly for an average of zero, and 0.9 at one second (`Reputation.SpeedBorders`). The
  model follows the code.
- The clamp at 100 (`reputation.py:130`) can act exactly when the clock is behind the node's last task
  (`Reputation.ClampActsExactly`); the one at 0 never does (`Reputation.ClampNeverActs`).
- The average response time is written back after the counters, so calls that overlap can leave a
  stale one for good (`Reputation.OverlapLeavesStaleAverage`); it is right for all response times
  exactly when no task was counted after the read that the last write-back used
  (`Reputation.AverageIsExact`).

## Model

| member | source | states |
|---|---|---|
| Safety.NoTaskIsStranded | src/gemmanet/coordinator/server.py:376-401 | In every reachable state the connection of an unfinished tracked task has an attached or unregistering handler, whose fail_connection is still to come |
| Safety.EndIsFinal | src/gemmanet/coordinator/server.py:811-813 | Once a handler has ended, every task ever found on its connection was there before and is finished |
| Failing.EndingFinishesEverything | src/gemmanet/coordinator/server.py:811-813 | From any reachable state the end of a live connection, followed by nothing but its handler's own steps, leads to no unfinished task on it |
| Failing.ReplacedLosesItsTasks | src/gemmanet/coordinator/server.py:747-753 | From any reachable state nothing but the steps of a registration that replaced a connection leads to no unfinished task on that connection |
| Failing.FailedSendFinishes | src/gemmanet/coordinator/server.py:397-401 | From any reachable state a failed send, followed by nothing but the request's own steps, leads to no unfinished task on that connection |
| Failing.ReplacedFailsForGood | src/gemmanet/coordinator/server.py:747-753 | In every run, from the step on in which a registration fails the connection it replaced, no task on that connection is ever unfinished |
| Failing.DroppedFailsForGood | src/gemmanet/coordinator/server.py:376-401 | In every run, from the step on in which a request fails a connection after a failed send or a drop, no task on that connection is ever unfinished |
| Failing.GoneAreRetired | src/gemmanet/coordinator/server.py:739-753 | In every reachable state a connection that was replaced or dropped but not yet failed is online for no node and never can be again |
| Safety.RepliesAreHeard | src/gemmanet/coordinator/server.py:388-398 | In every run a result on the task's connection, however soon after the send began, finds and finishes the task, unless somebody released, evicted or recreated it |
| Safety.NodeCap | src/gemmanet/coordinator/server.py:739-746 | In every reachable state at most `limit` live connections belong to an account |
| Safety.RefusalLosesNothing | src/gemmanet/coordinator/server.py:740-746 | A registration refused by the re-check leaves the pool as it was, and its node had no earlier connection |
| Safety.RecheckKeepsCap | src/gemmanet/coordinator/server.py:739-746 | Attach, re-check and rollback in one step keep the cap, refuse only nodes that were not online and then restore the pool |
| Routing.HelloIsRefusedExactly | src/gemmanet/coordinator/server.py:722-727 | In every run a registration is refused at once if and only if at least `limit` connected nodes other than its own belong to its account |
| Routing.AttachIsRefusedExactly | src/gemmanet/coordinator/server.py:736-746 | In every run the re-check refuses, and leaves the pool as it was, under the same condition on the pool just before; else the node is online with its info, and the connection it replaces is the one it had |
| Safety.AcknowledgedFirst | src/gemmanet/coordinator/server.py:736-739 | On every connection that was ever sent a task the first message is node_registered |
| Safety.StepKeepsAll | src/gemmanet/coordinator/server.py:677-813 | Every action keeps the invariants: live connections have attached handlers, pool keys agree, unfinished tasks have a handler left, the cap, acknowledgement first |
| Safety.AlwaysOk | src/gemmanet/coordinator/server.py:677-813 | These invariants hold in every state of every run |
| Safety.ClosedForever | src/gemmanet/coordinator/server.py:376-401 | An ended handler stays ended and its connection gains no task in any later step |
| Requests.HelloIsTakenExactly | src/gemmanet/coordinator/server.py:706-720 | Which registrations get as far as a node id: account without a slash, name and capabilities within their bounds, a new connection |
| Requests.HandlerSendsExactly | src/gemmanet/coordinator/server.py:726-761 | In every run a handler sends the refusal, the acknowledgement and the benchmark at their places on its own connection, and nothing else |
| Requests.AssignExactly | src/gemmanet/coordinator/server.py:382-397 | An assignment tracks the task on the node's live connection and sends it there with the request's tier; nothing happens without one |
| TrustTier.TrustNeverLeaks | src/gemmanet/coordinator/router.py:33-38 | No run from a start sends official-only work to another account's connection if and only if no entry of the starting routing set is misleading |
| TrustTier.AlwaysHonest | src/gemmanet/coordinator/registry.py:20-35 | Entries, offers to official-only requests and sent official-only tasks stay honest along every run, heartbeat read and write interleaved with registrations |
| TrustTier.LeftoverLeaks | src/gemmanet/coordinator/router.py:33-38 | From any start with a misleading entry in the routing set there is a run that leaks |
| TrustTier.CandidatesAreOfficial | src/gemmanet/coordinator/router.py:33-38 | Candidates for official-only work found among honest entries belong to official accounts |
| TrustTier.LoadKeepsHonest | src/gemmanet/coordinator/registry.py:28-32 | Merging heartbeat load fields into an entry cannot make it misleading |
| Router.CandidatesExactly | src/gemmanet/coordinator/router.py:33-38 | A node is a candidate if and only if it is connected and some entry read carries its id, lists the task type and, for official-only requests, says official |
| Routing.ChosenExactly | src/gemmanet/coordinator/router.py:33-38 | In every run a request's choice adds exactly these nodes to those offered before |
| Routing.RequestFindsNode | src/gemmanet/coordinator/registry.py:50-61 | From any reachable state a request's own steps offer it every connected node of the routing set whose entry is its own registration's: of any account for tier any, of an official account for tier official |
| Routing.RegisteredNodeIsFound | src/gemmanet/coordinator/server.py:747 | From an acknowledged registration on, its own steps and then a request's own steps lead to the node being offered to the request |
| Routing.InfoIsOwn | src/gemmanet/coordinator/server.py:728-735 | In every run a handler's info is that of a registration of its own account and node |
| Requests.AskedIsKept | src/gemmanet/coordinator/router.py:33-38 | In every run a request keeps the tier and the task type it was begun with |
| Requests.OfferedServed | src/gemmanet/coordinator/router.py:33-38 | In every run a node is only ever offered to a request that had read an entry naming it as able, when the node was connected |
| Requests.ReadWasStored | src/gemmanet/coordinator/registry.py:50-61 | In every run an entry a request has read was stored when it was read, for a node that was in the routing set when the request asked for it |
| Routability.RoutableWhileLive | src/gemmanet/coordinator/server.py:776-782 | From any reachable state a connected node stays known to routing for as long as it stays connected, whatever else happens short of an outside cleanup of it, if and only if it is in the routing set and no unregister of it, by a handler or a request, is under way |
| Routability.ReconnectCanLoseNode | src/gemmanet/coordinator/server.py:376-379 | For every account and name there is a run that leaves the node connected, serving and stored, and unknown to routing in everything that follows while it stays connected and its entry does not expire |
| Routability.LostWhileLive | src/gemmanet/coordinator/server.py:776-782 | From any reachable state a connected node stays unknown to routing for as long as it stays connected and its entry does not expire, heartbeats or not, if and only if it is out of the routing set, nobody is adding it, and nothing can make a heartbeat miss its entry |
| Routing.RegistrationStores | src/gemmanet/coordinator/registry.py:20-23 | From any reachable state a registration's own steps store its info under its node and add the node to the routing set, and change no other entry |
| Routing.HeartbeatStores | src/gemmanet/coordinator/registry.py:25-35 | From any reachable state a heartbeat's own steps renew the two load fields of the node's entry and nothing else; when the entry is gone, they store the info with the load and add the node to the routing set |
| Routing.EndForgetsNode | src/gemmanet/coordinator/server.py:376-379 | From any reachable state the end of a live connection, by its handler's own steps, takes exactly its node out of the pool, the table and the routing set |
| Requests.DropForgetsNode | src/gemmanet/coordinator/server.py:376-379 | From any reachable state dropping a connected node, by the request's own steps, takes exactly it out of the pool, the table and the routing set and leaves no task of its connection unfinished |
| Coordinator.NodeIdsAreInjective | src/gemmanet/coordinator/server.py:122-123 | Two registrations get the same node id exactly when account and name are the same |
| Coordinator.AccountOfDerived | src/gemmanet/coordinator/server.py:122-123 | The node id determines the account |
| Registry.LoadInfo | src/gemmanet/coordinator/server.py:143-154 | Whatever the payload, exactly the two load fields come out: a cpu load within 0 to 100 and a task count that is not negative unchanged, anything outside clamped, anything unreadable or missing as 0 |
| Reading.ReadsDiffer | src/gemmanet/coordinator/registry.py:50-61 | In every run from a table whose entries are stored under their own ids, the entries a request has read are of different nodes, though registrations, heartbeats and expiries change the table under its reads |
| Connections.LatestConnectionWins | src/gemmanet/coordinator/ws_manager.py:16-43 | After any attach/detach sequence a connection is live exactly when it is its node's last attached, not yet detached one |
| Connections.LatestInfo | src/gemmanet/coordinator/ws_manager.py:16-29 | After any sequence a live node has the info and the account of its live connection's attach |
| Connections.SameKeys | src/gemmanet/coordinator/ws_manager.py:16-43 | After any sequence the three dictionaries have the same keys, given that attaches name an account |
| Connections.ReplacedDetachIsIdle | src/gemmanet/coordinator/ws_manager.py:31-38 | Detaching a replaced connection changes nothing |
| Connections.Rollback | src/gemmanet/coordinator/ws_manager.py:16-43 | Attach then detach leaves the node offline, and restores the pool when it was offline |
| Connections.WSConnectionManager.constructor | src/gemmanet/coordinator/ws_manager.py:10-14 | A new manager has no connections |
| Connections.WSConnectionManager.Attach | src/gemmanet/coordinator/ws_manager.py:16-29 | The connection becomes live with its info and account, the others are untouched, and the replaced one, if another, is returned |
| Connections.WSConnectionManager.Detach | src/gemmanet/coordinator/ws_manager.py:31-43 | Forgets the node exactly when the connection is its live one, and says so |
| Connections.WSConnectionManager.ExceedsNodeLimit | src/gemmanet/coordinator/ws_manager.py:45-55 | True exactly when at least `limit` other nodes of the account are online |
| Tasks.EventLogs | src/gemmanet/coordinator/tasks.py:48-113 | Over any call sequence each task's events are chunks, then at most one terminal; finished exactly when it is there; chunk bytes in total and result bytes within the limit |
| Tasks.LastLogGrows | src/gemmanet/coordinator/tasks.py:83-113 | Calls that do not recreate a task only ever add to the events its holder has been given, also when it is evicted meanwhile |
| Tasks.LastLogOk | src/gemmanet/coordinator/tasks.py:83-113 | What the holder of a task has been given is well formed and bounded, tracked or not |
| Tasks.ChunkKeepsLogOk | src/gemmanet/coordinator/tasks.py:87-96 | A chunk message keeps the log well formed and bounded, whether it is added, refused or fails the task |
| Tasks.ResultKeepsLogOk | src/gemmanet/coordinator/tasks.py:98-107 | So does a result |
| Tasks.DisconnectKeepsLogOk | src/gemmanet/coordinator/tasks.py:109-113 | So does the end of a connection |
| Tasks.ResolveExactly | src/gemmanet/coordinator/tasks.py:98-107 | A result adds exactly itself to an unfinished task's log, whatever its status, or exactly the size error, and finishes it; all else stays |
| Tasks.AddChunkExactly | src/gemmanet/coordinator/tasks.py:87-96 | A chunk adds exactly itself to an unfinished task's log while the bytes of all its chunks fit, else exactly the size error, which finishes it |
| Tasks.FailConnectionExactly | src/gemmanet/coordinator/tasks.py:109-113 | The end of a connection adds exactly the disconnect to its unfinished tasks, finishes them, and leaves all others as they are |
| Tasks.CreateExactly | src/gemmanet/coordinator/tasks.py:48-61 | A new task is unfinished, on its connection, with an empty log; of the others exactly those over the age limit go |
| Tasks.ReleaseAndNextExactly | src/gemmanet/coordinator/tasks.py:66-67 | Releasing a task forgets it alone; taking an event takes the oldest and leaves the log as it was |
| Tasks.OtherMessagesDoNothing | src/gemmanet/coordinator/tasks.py:69-78 | Messages about unknown or finished tasks, or from other connections, change nothing |
| Tasks.OnlyOwnConnectionCounts | src/gemmanet/coordinator/tasks.py:69-78 | Dropping every call about other tasks or from other connections leaves the task's queue, finish time and byte count the same |
| Tasks.PendingTask.constructor | src/gemmanet/coordinator/tasks.py:17-25 | A new task has an empty queue, is unfinished and has streamed nothing |
| Tasks.PendingTask.Fail | src/gemmanet/coordinator/tasks.py:83-85 | The task is finished now and the error is its last event |
| Tasks.PendingTask.Next | src/gemmanet/coordinator/tasks.py:116-121 | Takes the oldest event and nothing else |
| Tasks.TaskTracker.constructor | src/gemmanet/coordinator/tasks.py:40-46 | A new tracker tracks nothing |
| Tasks.TaskTracker.EvictExpired | src/gemmanet/coordinator/tasks.py:54-61 | Exactly the tasks older than the age limit go; without a limit none |
| Tasks.TaskTracker.Create | src/gemmanet/coordinator/tasks.py:48-52 | Expired tasks go, then the new task is tracked under its id; it is the object returned |
| Tasks.TaskTracker.Pop | src/gemmanet/coordinator/tasks.py:66-67 | The task, if any, is returned and no longer tracked |
| Tasks.TaskTracker.AddChunk | src/gemmanet/coordinator/tasks.py:87-96 | An unfinished task's own connection adds the chunk or, over the byte limit, fails the task; otherwise nothing changes |
| Tasks.TaskTracker.Resolve | src/gemmanet/coordinator/tasks.py:98-107 | An unfinished task's own connection finishes it with the result or, over the byte limit, fails it; otherwise nothing changes |
| Tasks.TaskTracker.FailConnection | src/gemmanet/coordinator/tasks.py:109-113 | Exactly the unfinished tasks of the connection fail |
| Streaming.QueueStep | src/gemmanet/coordinator/tasks.py:116-121 | The k-th wait gets the k-th event ever put, or the timeout when it starts past the deadline or all that arrived was taken |
| Streaming.WaitResult | src/gemmanet/coordinator/tasks.py:124-131 | Every chunk before the end came in time; then the outcome is the first event that is no chunk if it came in time, else the timeout |
| Streaming.OutcomeIsDetermined | src/gemmanet/coordinator/tasks.py:124-131 | Events and timing leave exactly one outcome that this allows |
| Streaming.TimesOutExactly | src/gemmanet/coordinator/tasks.py:116-131 | A wait times out if and only if it is called at its deadline or later, or nothing that arrived by its end is left to take |
| Streaming.Relay | src/gemmanet/coordinator/server.py:541-580 | The loop ends exactly by a terminal event in time or a missed deadline, which each chunk extends; it yields the chunks that came in time and then the ending, and records one outcome |
| Streaming.GivesUpExactly | src/gemmanet/coordinator/server.py:541-556 | A stream gives up if and only if it starts to wait task_timeout after its last chunk (or start) or streamMax after its start or later, or nothing that arrived by then is left to take |
| Streaming.StreamTask | src/gemmanet/coordinator/server.py:534-582 | For any events and timing on the shared tracker: the deltas of the chunks that came in time, one outcome that is a success exactly for done, no deadline past the hard one, and the tracker afterwards is that of all calls made meanwhile with the task released |
| Streaming.WaitsSeeTheLog | src/gemmanet/coordinator/tasks.py:116-121 | Whatever other coroutines do on the tracker, the holder of a task sees exactly the events put on it while it is tracked, in order |
| Streaming.RelayIsBounded | src/gemmanet/coordinator/tasks.py:40-46 | Whatever a node sends and others do, the text a stream relays is at most max_result_bytes in UTF-8 |
| Streaming.RelayIsDetermined | src/gemmanet/coordinator/server.py:545-580 | Events and timing leave exactly one output that this allows |
| Streaming.OneFinalItem | src/gemmanet/coordinator/server.py:537-539 | All items but the last are deltas, and the last is final exactly when the stream ran to its end |
| Streaming.RelayedTexts | src/gemmanet/coordinator/server.py:554-580 | The deltas are the chunks in order, or the whole result when nothing was streamed before it |
| Streaming.FinalItem | src/gemmanet/coordinator/server.py:559-580 | The final item names the terminal event: too large, node gone, failed with the node's own text, or done with its result |
| NodeStream.Emit | src/gemmanet/sdk/node.py:209-228 | The text is all pieces concatenated; when streaming, the non-empty ones are sent in order |
| NodeStream.SentOneByOne | src/gemmanet/sdk/node.py:211-215 | Every piece with text is sent, alone, after as many messages as there are pieces with text before it, and nothing else is |
| NodeStream.HandleTask | src/gemmanet/sdk/node.py:239-281 | One result message for each handler shape, failed with its own text for a missing or raising handler, with the pieces streamed before it |
| NodeStream.SkippingEmptiesKeepsText | src/gemmanet/sdk/node.py:211-215 | Not sending empty pieces loses no text |
| NodeStream.ChunksFit | src/gemmanet/coordinator/tasks.py:87-96 | All chunks are queued in order exactly when their bytes in total fit the limit |
| NodeStream.AcceptedStreamKeepsItsResult | src/gemmanet/coordinator/tasks.py:87-107 | A completing generator's stream fails on size exactly when its whole text is too large; otherwise the log is its pieces and then the result |
| NodeStream.LogOfMessages | src/gemmanet/coordinator/tasks.py:87-107 | What a task is given of its node's messages, failed or completed: all of them when they fit, else some chunks and the size error |
| NodeStream.RelayEnds | src/gemmanet/coordinator/server.py:554-580 | What the consumer has got at the end of such a log |
| NodeStream.TaskFollowsMessages | src/gemmanet/coordinator/tasks.py:69-107 | Whatever others do on the tracker short of expiring it, a task becomes what its own node's messages make of it |
| NodeStream.StreamEndToEnd | src/gemmanet/coordinator/server.py:554-580 | When a handler's messages are the calls on its task among any calls of others, none of which expires it, a drained stream that did not time out delivers what the handler made: its text and a success; its pieces, its error and a failure; or, over the limit, the size error and a failure |
| Eviction.EvictionIsSafe | src/gemmanet/coordinator/server.py:264-267 | No create evicts a task whose stream still waits, for any chunk pattern, if and only if the body started within TASK_TIMEOUT of creation |
| Eviction.CanWaitUntil | src/gemmanet/coordinator/server.py:541-556 | Chunks can keep a stream waiting up to any moment before its hard deadline |
| Router.EligibleExactly | src/gemmanet/coordinator/router.py:101-113 | The two filters keep node n exactly when some entry read carries its id and lists the task type, is official if the request demands it, and n is connected and not suspended |
| Router.EligibleDiffer | src/gemmanet/coordinator/router.py:33-38 | From entries of different nodes the filters keep different nodes |
| Router.FindBestNode | src/gemmanet/coordinator/router.py:40-97 | A highest-scored node that an entry read names as able, that is connected, not suspended and not excluded, and None only if there is none |
| Router.SortByScore | src/gemmanet/coordinator/router.py:122-123 | The list ordered by falling score: a permutation that keeps ids of one score in their order |
| Router.FindNodesForSplit | src/gemmanet/coordinator/router.py:99-123 | As many such nodes as needed, or all, none of which scores below one left out; different nodes when the entries read are of different nodes |
| Dispatch.Assign | src/gemmanet/coordinator/server.py:382-401 | Takes the task exactly if the node is live and the send works; a failed send leaves the task untracked, whatever other coroutines did meanwhile |
| Dispatch.FailedSendOps | src/gemmanet/coordinator/server.py:389-401 | A failed assignment is create, pop and fail_connection in that order around the others' calls |
| Dispatch.ForeignAddsNothing | src/gemmanet/coordinator/tasks.py:48-113 | Other coroutines' calls never track one of our ids |
| Dispatch.Dispatch | src/gemmanet/coordinator/server.py:404-417 | At most three different nodes, each the one routing picks given those before; the first that works keeps the task; NoNodeAvailable only when none did and then the task is not tracked; nothing else happens to the tracker |
| Dispatch.DispatchIsDetermined | src/gemmanet/coordinator/server.py:407-417 | Routing and the attempts leave exactly one order of tries and one node |
| Dispatch.RunTask | src/gemmanet/coordinator/server.py:451-466 | The node is the dispatched one; the wait over the events put on the task decides the outcome, recorded once for that node; the tracker afterwards is that of all calls made meanwhile with the task released, unless it is still waited for |
| SplitTask.SubIdsDiffer | src/gemmanet/coordinator/server.py:485 | Different chunks have different task ids |
| SplitTask.PlaceChunk | src/gemmanet/coordinator/server.py:486-494 | The first working node in rotated order has the chunk, and only when none works it is dispatched; the tracker sees exactly these attempts |
| SplitTask.PlacementIsDetermined | src/gemmanet/coordinator/server.py:486-494 | The attempts leave exactly one placement of a chunk |
| SplitTask.FirstWorkingNode | src/gemmanet/coordinator/server.py:486-491 | The first node that works, going round from node i mod n, has chunk i |
| SplitTask.OwnNodeFirst | src/gemmanet/coordinator/server.py:486-491 | When node i mod n works, it gets chunk i in its first attempt |
| SplitTask.PlaceAll | src/gemmanet/coordinator/server.py:483-494 | The chunks are placed one task each in order, up to the first that finds no node; only sub-tasks of placed chunks are tracked |
| SplitTask.Collect | src/gemmanet/coordinator/server.py:503-522 | One record per chunk for its own node, the texts in chunk order, the first failure as cause |
| SplitTask.FirstFailureIs | src/gemmanet/coordinator/server.py:510-520 | The error raised is that of the first chunk that got no answer |
| SplitTask.AnswersInOrder | src/gemmanet/coordinator/server.py:503-522 | When every chunk was answered there is one text for each, in chunk order |
| SplitTask.Gather | src/gemmanet/coordinator/server.py:496-498 | The outcome of every chunk is that of waiting for the events put on its own task |
| SplitTask.Release | src/gemmanet/coordinator/server.py:499-501 | Exactly the sub-tasks are released, and none stays tracked |
| SplitTask.RunSplitTask | src/gemmanet/coordinator/server.py:480-531 | Every chunk is placed once, or the first without a node ends it; each chunk's outcome is that of its own wait on the shared tracker; one record per chunk for its node; answers merged in chunk order, or the first failure; no sub-task is left unless one is still waited for |
| SplitTask.LoadIs | src/gemmanet/coordinator/server.py:484-491 | Of n chunks in turn a node gets n divided by the nodes, one more for the first few |
| SplitTask.PlacedLoad | src/gemmanet/coordinator/server.py:484-491 | How often a node occurs among the placed chunks is its share in turn |
| SplitTask.LoadsAreBalanced | src/gemmanet/coordinator/server.py:484-491 | With different nodes, each of which works for its chunks, no node gets two chunks more than another |
| SplitTask.SplitAndRun | src/gemmanet/coordinator/server.py:472-531 | From the content and the entries read on: the content is split as promised, at most three connected, capable and unsuspended nodes are used, NoNodeAvailable when there is none, the split task as above, a balanced load when the entries are of different nodes and these work, and, when every node answers its chunk's text, the content's non-space characters in order |
| Splitter.SplitContent | src/gemmanet/coordinator/router.py:129-158 | Exactly n chunks, each its group of paragraphs, sentences or characters, for the first of these there are enough of; the branch's separator rejoins the content; merging keeps the non-space characters in order |
| Splitter.JoinGroups | src/gemmanet/coordinator/router.py:131-138 | Chunk i is the i-th group of consecutive pieces, the last taking the rest, and the n chunks rejoin to what all pieces join to |
| Splitter.CutCharacters | src/gemmanet/coordinator/router.py:151-158 | n consecutive chunks that concatenate to the content |
| Splitter.JoinUndoesSplit | src/gemmanet/coordinator/router.py:130-137 | Joining a split with its separator gives the content back |
| Splitter.FindIsFirst | src/gemmanet/coordinator/router.py:130 | No occurrence of the separator starts before the one that is found, overlapping it or not |
| Splitter.SplitExactly | src/gemmanet/coordinator/router.py:130-148 | A split is the one sequence of parts that joins to the text with every separator taken as early as possible |
| Splitter.PartsHaveNoSeparator | src/gemmanet/coordinator/router.py:130-148 | No part of a split contains the separator |
| Splitter.ReplaceJoinsParts | src/gemmanet/coordinator/router.py:141 | Replacing joins the parts of the split with the replacement: left to right, without overlaps, every occurrence |
| Splitter.ParagraphsAreChunks | src/gemmanet/coordinator/router.py:129-138 | Content of exactly n paragraphs is split into them |
| Splitter.JoinLines | src/gemmanet/coordinator/router.py:141-148 | Joining lines with spaces only turns newlines into spaces |
| Splitter.BreakSentences | src/gemmanet/coordinator/router.py:141 | Breaking lines after sentences only replaces spaces by newlines |
| Splitter.MergedText | src/gemmanet/coordinator/router.py:160-161 | Merging adds and removes white space only |
| Splitter.MergeSplitsBack | src/gemmanet/coordinator/router.py:160-161 | Splitting merged answers at blank lines gives the stripped answers back if and only if none of them contains a blank line |
| Splitter.StripExactly | src/gemmanet/coordinator/router.py:160-161 | Stripping takes white space, and all of it, off both ends |
| Limits.SlidingWindowLimiter.constructor | src/gemmanet/coordinator/limits.py:39-42 | A new limiter has allowed nothing |
| Limits.SlidingWindowLimiter.Allow | src/gemmanet/coordinator/limits.py:44-56 | Over a clock that does not run back: true exactly when fewer than `limit` earlier calls of the key were answered true within the window; always when there were fewer calls of the key in it at all |
| Limits.SlidingWindowLimiter.Decide | src/gemmanet/coordinator/limits.py:51-56 | True exactly when fewer than `limit` of all the key's events ever allowed are within the window, though only some are kept; an allowed event is recorded |
| Limits.SlidingWindowLimiter.Open | src/gemmanet/coordinator/limits.py:47-50 | Making room and starting a key afresh keeps the answers |
| Limits.SlidingWindowLimiter.Prune | src/gemmanet/coordinator/limits.py:58-61 | Only keys with no event in the window are forgotten, all of them, and the rest is unchanged |
| Limits.DropOld | src/gemmanet/coordinator/limits.py:51-52 | What is left is the events of the window, as many as in the full history |
| Limits.AtMostLimitPerWindow | src/gemmanet/coordinator/limits.py:34-56 | Any half-open window, wherever it starts, holds at most `limit` calls of a key that were answered true |
| Limits.CheckIsExact | src/gemmanet/coordinator/limits.py:73-91 | Accepted if and only if containers nest at most MAX_PARAMS_DEPTH deep and every string, keys included, is short enough |
| Limits.CheckFrom | src/gemmanet/coordinator/limits.py:79-91 | The same from any depth |
| InstanceLock.LeasesExclude | src/gemmanet/coordinator/instance_lock.py:19-31 | With any number of processes acquiring, refreshing, stalling and releasing, leases never overlap if and only if Redis cannot lose the key |
| InstanceLock.OnlyTheHolderChangesIt | src/gemmanet/coordinator/instance_lock.py:19-31 | No other process's acquire, refresh or release changes the key while the holder's lease runs |
| InstanceLock.ReleaseFreesKey | src/gemmanet/coordinator/instance_lock.py:71-78 | In every run in which Redis keeps the key, the first acquire of any process after the holder's release succeeds at once |
| InstanceLock.HolderExtends | src/gemmanet/coordinator/instance_lock.py:58-63 | In every such run the holder's refresh renews key and lease for a full TTL |
| InstanceLock.LapsedKeyIsFree | src/gemmanet/coordinator/instance_lock.py:58-69 | A key that lapsed or was lost is anyone's to take at once, and no refresh or release touches it |
| InstanceLock.BoundedWait | src/gemmanet/coordinator/instance_lock.py:35-56 | While nobody takes or extends the key after our start, acquire never raises if and only if every reply takes at most wait - ttl (less than wait for a TTL of at most a second) |
| InstanceLock.AlwaysAcquires | src/gemmanet/coordinator/instance_lock.py:44-56 | With such replies the lock is acquired after at most ttl + 1 attempts |
| InstanceLock.SlowReplyRaises | src/gemmanet/coordinator/instance_lock.py:47-53 | Any slower reply bound allows a schedule on which acquire raises although the key expires in time |
| InstanceLock.RedisKey.SetNx | src/gemmanet/coordinator/instance_lock.py:47 | Takes the key exactly if nobody holds it |
| InstanceLock.RedisKey.Refresh | src/gemmanet/coordinator/instance_lock.py:19-24 | Extends the key exactly if the token holds it |
| InstanceLock.RedisKey.Release | src/gemmanet/coordinator/instance_lock.py:26-31 | Deletes the key exactly if the token holds it |
| InstanceLock.SingleInstanceLock.constructor | src/gemmanet/coordinator/instance_lock.py:35-42 | A new lock holds nothing and does not refresh |
| InstanceLock.SingleInstanceLock.Acquire | src/gemmanet/coordinator/instance_lock.py:44-56 | Whatever others write between the attempts, it ends as the polling specification says; on success the key is ours and refreshing starts; a raise leaves the key to its holder |
| InstanceLock.AcquireOutcome | src/gemmanet/coordinator/instance_lock.py:44-56 | Acquired at the first attempt that finds the key free, raised at the first that finds it held and comes back after the wait, if all before found it held and came back in time |
| InstanceLock.SingleInstanceLock.RefreshOnce | src/gemmanet/coordinator/instance_lock.py:58-69 | The lease is extended if still ours, else taken back if the key is free by then, else left to its holder |
| InstanceLock.SingleInstanceLock.Release | src/gemmanet/coordinator/instance_lock.py:71-78 | Refreshing stops, and only our own key is deleted |
| Reputation.NodeReputation.constructor | src/gemmanet/coordinator/reputation.py:36-61 | A node without history has no counters and no ratings |
| Reputation.NodeReputation.RecordTaskResult | src/gemmanet/coordinator/reputation.py:36-55 | One call after the other: the counters, average and last time are those of the history with the new task |
| Reputation.CountersUnderConcurrency | src/gemmanet/coordinator/reputation.py:36-55 | With calls interleaved in any way, total, successes, failures and summed time are those of all tasks counted, and the average is that of some first tasks |
| Reputation.ConcurrentCountersArePlausible | src/gemmanet/coordinator/reputation.py:36-55 | So what is proved of the score holds under any interleaving |
| Reputation.AverageIsExact | src/gemmanet/coordinator/reputation.py:36-55 | For every schedule of overlapping calls the stored average is right for all outcomes and response times if and only if no task was counted after the read that the last write-back used |
| Reputation.AverageIsTraced | src/gemmanet/coordinator/reputation.py:36-55 | In every schedule the stored average is that of the tasks counted before the read behind the last write-back |
| Reputation.OverlapLeavesStaleAverage | src/gemmanet/coordinator/reputation.py:50-55 | For any two tasks there is a schedule that ends with no call under way and the first task's time as the average of both |
| Reputation.NodeReputation.RecordUserRating | src/gemmanet/coordinator/reputation.py:57-61 | The list is the newest hundred of all ratings ever, newest first |
| Reputation.NodeReputation.CheckAndSuspend | src/gemmanet/coordinator/reputation.py:186-193 | Suspends for 24 hours exactly when the history's score is below 35 after more than ten tasks |
| Reputation.CountersAddUp | src/gemmanet/coordinator/reputation.py:40-55 | Successes never exceed the tasks and the total time stays within tasks times the slowest |
| Reputation.HistoriesArePlausible | src/gemmanet/coordinator/reputation.py:40-55 | For every history total is successful plus failed and the average is no more than the slowest response |
| Reputation.NewestHundredKept | src/gemmanet/coordinator/reputation.py:57-61 | With pushes and trims of concurrent ratings in any order, the list after a trim is the newest hundred of the full history |
| Reputation.NewestAt | src/gemmanet/coordinator/reputation.py:57-61 | The newest hundred are all ratings up to a hundred, the last one first |
| Reputation.NewNodeScoresFifty | src/gemmanet/coordinator/reputation.py:95-96 | A node without tasks scores 50, whatever its ratings |
| Reputation.PartsAreFractions | src/gemmanet/coordinator/reputation.py:103-121 | Completion, speed, recency and rating parts each lie between 0 and 1 |
| Reputation.ClampNeverActs | src/gemmanet/coordinator/reputation.py:123-130 | The unclamped score of any plausible history is at least 4, and at most 100 unless the clock ran back |
| Reputation.ClampActsWhenTheClockGoesBack | src/gemmanet/coordinator/reputation.py:109-112 | For every clock behind the last task there is a history whose unclamped score is above 100 |
| Reputation.ClampActsExactly | src/gemmanet/coordinator/reputation.py:109-130 | No counters and ratings of a node score above 100 unclamped if and only if the node has no last task or the clock is not behind it |
| Reputation.SpeedBorders | src/gemmanet/coordinator/reputation.py:106-107 | The full speed score takes exactly an average of zero, one second gives 0.9, and the score is gone exactly from ten seconds on |
| Reputation.PartsAreLinear | src/gemmanet/coordinator/reputation.py:103-121 | Between their borders the speed score is linear in the average and recency in the age of the last task; completion is the share of successes, ratings the mean over five; 0.5 without an average or ratings |
| Reputation.Weights | src/gemmanet/coordinator/reputation.py:123-128 | Between the borders the raw score written out: 40 points for completion, 20 for each other part |
| Reputation.RoundingIsNearest | src/gemmanet/coordinator/reputation.py:130 | The rounded score is the nearest tenth, the even one halfway |
| Reputation.ScoreIsMonotone | src/gemmanet/coordinator/reputation.py:90-130 | More successes, lower average time and better ratings never lower the rounded score |
| Reputation.SuccessNeverLowersScore | src/gemmanet/coordinator/reputation.py:36-130 | One more success, no slower than the average and no earlier than the last task, never lowers the score of a node with a history |
| Reputation.SuspendsBelow | src/gemmanet/coordinator/reputation.py:130-193 | A node is suspended exactly when it has more than ten tasks and an unrounded score below 34.95 |
| Reputation.SuspensionBorder | src/gemmanet/coordinator/reputation.py:186-193 | No speed and ratings can get a node suspended if and only if it is new or completion and recency alone reach the border |
| Reputation.AlwaysSafeFromSuspension | src/gemmanet/coordinator/reputation.py:186-193 | Safe at all times if and only if it has at most ten tasks or at least 619 successes per 800 tasks; 31 per 40 is enough |
| Rating.RateOnce | src/gemmanet/coordinator/reputation.py:63-88 | A task is rated at most once in every run if and only if the marker follows the lookup without delay |
| Rating.RatedAgainOnlyAfterExpiry | src/gemmanet/coordinator/reputation.py:71-88 | Only the requester rates, and a second rating needs a lookup before and a marker after the record's expiry |
| Rating.AppliedIsAsAsked | src/gemmanet/coordinator/reputation.py:71-88 | In every run an applied rating is the one its own call asked for, for that call's task and requester, looked up and marked at that call's own times |
| Rating.OnlyTheRequesterRates | src/gemmanet/coordinator/reputation.py:80-81 | In every run the account of an applied rating is the one that requested the task |
| Rating.RatingIsApplied | src/gemmanet/coordinator/reputation.py:63-88 | The requester's first rating of a task is applied as asked if looked up before the record expires, whatever happened since and whatever the delay of its marker |
| Rating.SlowMarkRatesTwice | src/gemmanet/coordinator/reputation.py:76-84 | Any positive delay allows a run that rates a task twice |

## Left out

- HTTP routes, auth headers, CORS, request rate limits of slowapi, SSE and JSON encoding, pydantic validation: library plumbing; a registration that is rejected before it has a node id touches nothing here.
- PostgreSQL keys and feedback, token generation and hashing: the account of a registration is an input.
- Cancellation of coroutines, Redis calls that raise, thread hops and the closing of sockets: a wait is one atomic dequeue or timeout.
- UUIDs: node ids stand for the text that is hashed, and fresh task ids are taken not to occur elsewhere.
- The size limits of a WebSocket message and an HTTP body, and lone surrogates in texts.
- Benchmarks after the first one, load keys, cleanup of stale ids (its effect is the action `LeaveOnline`) and the public node list: they decide nothing above.
- Account deletion removing every node of the account: a handler that validated its key earlier may still attach, so it does not hold for all interleavings.
- Random routing noise and the weighted sum: a score is any function of the node, and suspension any set.
- Elapsed times and usage numbers in results, log messages, and outcomes of a split other than a result, a timeout, a disconnect or an oversized result.
- The key count, key syntax and JSON size checks of `check_params`: single comparisons.
- The leaderboard, forgetting a node and the expiry of its suspension.
- SplitTask.RunSplitTask: the chunks' waits run side by side in the program; each is given by its own sequence of waits within the common waiting time.
- NodeStream.StreamEndToEnd: that no message of the node is lost and none comes after the stream's end is a condition on the calls.
- Streaming.StreamTask: the hard and the first deadline are computed from one clock reading, where the code reads the clock twice.
- Registry.LoadInfo: float() and int() are inputs; where they raise an error the code does not catch (an infinite active_tasks) the handler ends, which is the action `End`.
- Router.SortByScore: the library's sort is modelled by insertion behind equal scores.
- TrustTier.TrustNeverLeaks: a start is any content of Redis; requests and registrations of other coordinator processes on the same Redis are excluded by the instance lock.
