# Sharpbench job queue and real-time client registry, in Dafny

This project models two small state machines of Sharpbench, a service that
benchmarks C# snippets, and proves properties about them. The model has two
modules.

**`SharpbenchCore` (`job_queue.dfy`)** models the Redis-backed `JobQueue`.
- The Redis list under the queue key is a `seq<Key>`. Index 0 is its left
  end, where `SubmitJob` pushes; `GetNextJob` pops from the right.
- The `AutoResetEvent` that wakes the consumer is a boolean field.
- The pub/sub handler is a method that sets that field.
- `ListenForJobs` is a loop run against a script of `Tick`s. Each tick says
  what the consumer's surroundings do during one pass:
  - whether cancellation is requested at the head of the pass;
  - which entry keys producers push while the pass is suspended after its pop;
  - how many publications reach the handler during the pass;
  - whether a publication reaches it during the wait.
- The loop is proved against the function `Listen`. The lemmas about
  `Listen` give:
  - FIFO order, with no entry lost or duplicated;
  - exit at the first pass that sees cancellation;
  - draining of the list when the consumer is left alone;
  - coalescing of wake-ups.

**`SharpbenchApi` (`realtime_clients_notifier.dfy`)** models
`RealtimeClientsNotifier`.
- Its `ConcurrentDictionary` is a map from client id to `ClientEntry`.
- A `WebSocket` is a class with a closed flag, a log of frames sent and a
  log of close requests.
- A `TaskCompletionSource` is a class with a completed flag. `SetResult`
  requires it to be uncompleted, because completing it twice throws.
- The class invariant `Valid` holds before and after every public operation.
  It says that every entry is stored under its own id, no two entries share a
  socket or a handle, and no registered handle is completed. As a result, no
  operation completes a handle that an earlier operation already completed.
  This holds for operations that run one after another, with each one
  finishing before the next starts.
- The dictionary's enumeration order is left open. `BroadcastRawMessage`
  and `CloseAllClients` visit the ids in any order, chosen with `:|`.

Two behaviours of the code are kept as written:
- Registration uses `TryAdd` (server/RealtimeClientsNotifier.cs:20-21).
  - A second registration under an id that is already present changes
    nothing.
  - The handle created for it is stored nowhere, so the notifier never
    completes its task.
- When the pop finds the list empty, the loop goes straight back to its head
  without waiting (core/JobQueue.cs:48-51). An empty list is therefore
  polled in a tight loop. The consumer waits on the signal only after it
  has yielded a job (core/JobQueue.cs:67).

## Model

| member | source | states |
|---|---|---|
| SharpbenchCore.JobQueue.constructor | core/JobQueue.cs:14-21 | A new queue keeps its key, its channel and the key encoding, and sits over the list already stored; the jobs-available signal starts unset. |
| SharpbenchCore.JobQueue.SubmitJob | core/JobQueue.cs:23-31 | The list gains exactly one entry, the job's encoded key, at its left end; the rest of the list is unchanged and its length grows by one. |
| SharpbenchCore.JobQueue.OnJobsMessage | core/JobQueue.cs:36-43 | Any delivery on the jobs channel leaves the signal set, whether it was set before or not (deliveries coalesce). |
| SharpbenchCore.JobQueue.WaitOne | core/JobQueue.cs:67 | A wait reports the signal when the signal was set or becomes set while waiting; on timeout it reports false. Either way the signal is unset afterwards (auto-reset). |
| SharpbenchCore.JobQueue.GetNextJob | core/JobQueue.cs:71-80 | On an empty list it returns null and leaves the list unchanged. Otherwise it removes exactly the rightmost entry and returns its decoded id. |
| SharpbenchCore.JobQueue.Surroundings | core/JobQueue.cs:23-43 | While a pass is suspended, producers' left pushes add their keys in order. The signal is set afterwards exactly when it was set before or at least one publication was delivered, however many were. |
| SharpbenchCore.JobQueue.RunPass | core/JobQueue.cs:47-67 | One pass of the loop body ends in exactly the state `Pass` describes: list, signal and how the wait ended. It yields the decoded popped key, or nothing on a null pop. |
| SharpbenchCore.JobQueue.Advance | core/JobQueue.cs:45-68 | One pass moves the loop from pass `i` to pass `i + 1` without changing its final outcome, and the ids yielded so far stay the decoded keys popped so far. |
| SharpbenchCore.JobQueue.ListenForJobs | core/JobQueue.cs:33-69 | The loop ends with the list, signal and yielded ids that `Listen` gives for the same start and the same script. The yielded ids are the decoded keys it popped, in pop order. |
| SharpbenchCore.Pass | core/JobQueue.cs:47-67 | A pass pops at most once, and pops nothing exactly when the list is empty. It waits exactly when it popped a job. After a wait the signal is unset. After a null pop the signal is only what deliveries made it. |
| SharpbenchCore.PassLosesNothing | core/JobQueue.cs:47-57 | The old list in pop order, followed by the keys submitted during a pass, equals what the pass popped followed by the new list in pop order. |
| SharpbenchCore.ListenFrom | core/JobQueue.cs:45 | The loop stops at a pass whose head sees cancellation. |
| SharpbenchCore.Listen | core/JobQueue.cs:45-68 | A whole run of the loop, started at the first pass, stops at a pass of the script whose head sees cancellation. |
| SharpbenchCore.ListenStopsAtFirstCancel | core/JobQueue.cs:45 | Cancellation is read only at the head of a pass. The loop stops at the first pass that sees it and at no earlier one. |
| SharpbenchCore.ListenFromLosesNothing | core/JobQueue.cs:45-57 | From any pass on, the popped entries, followed by what is left in pop order, equal the earlier pops, the list in pop order and everything submitted during the passes made. No job is lost or handed out twice. |
| SharpbenchCore.ListenLosesNothing | core/JobQueue.cs:33-69 | The same for a whole run of the loop from an empty history. |
| SharpbenchCore.ListenWithoutProducers | core/JobQueue.cs:45-57 | With no producer at work, the loop pops one entry per pass in FIFO order until the list is empty, and pops nothing afterwards. |
| SharpbenchCore.IdleConsumerDrains | core/JobQueue.cs:45-67 | A consumer left alone with its signal unset drains the list in FIFO order, one entry per pass, and every wait ends by timeout. Any further idle passes on the empty list pop nothing and do not wait. The loop stops, with the list empty, at whichever later pass sees cancellation. |
| SharpbenchCore.CoalescedWakeLosesNoJob | core/JobQueue.cs:36-67 | Three publications, one for each of three jobs submitted while one job is handled, leave a single pending wake. The next wait returns at once, all three jobs are still popped in order, and each of their waits ends by timeout. |
| SharpbenchCore.PushedThenPoppedInOrder | core/JobQueue.cs:23-80 | Keys pushed on the left come out of right pops after everything already in the list, in the order they were pushed (FIFO). |
| SharpbenchCore.SubmittedThreeComeOutInOrder | core/JobQueue.cs:23-80 | Submitting A, B and C to an empty queue makes successive pops return A, B, C. |
| SharpbenchCore.PopOrderOfRightPop | core/JobQueue.cs:73 | A right pop takes the entry that comes first in pop order; the rest of the list keeps the rest of the order. |
| SharpbenchCore.ReversedTwice | core/JobQueue.cs:73 | Reversing twice gives the list back. Pop order and push order are mutually inverse. |
| SharpbenchApi.WholeMessage | server/RealtimeClientsNotifier.cs:31 | The segment built over a job message covers exactly its payload: offset 0, full length. |
| SharpbenchApi.Bytes | server/RealtimeClientsNotifier.cs:84 | The bytes a segment hands to the socket are the `count` bytes of its buffer starting at `offset`. |
| SharpbenchApi.WebSocket.SendAsync | server/RealtimeClientsNotifier.cs:84 | Sending appends one frame, with the segment's bytes, the message type and the end-of-message flag, and changes nothing else on the socket. |
| SharpbenchApi.WebSocket.CloseAsync | server/RealtimeClientsNotifier.cs:46 | Closing records the close request with its status and reason, and leaves the socket closed without sending anything. |
| SharpbenchApi.TaskCompletionSource.constructor | server/RealtimeClientsNotifier.cs:20 | A new handle starts uncompleted, so the first completion of it succeeds. |
| SharpbenchApi.TaskCompletionSource.SetResult | server/RealtimeClientsNotifier.cs:47 | Completing a handle requires it to be uncompleted, since a second completion throws, and leaves it completed. |
| SharpbenchApi.RealtimeClientsNotifier.constructor | server/RealtimeClientsNotifier.cs:9-15 | A new notifier has no clients and satisfies the invariant. |
| SharpbenchApi.RealtimeClientsNotifier.RealTimeSyncWithClient | server/RealtimeClientsNotifier.cs:17-26 | The returned handle is new and uncompleted. An absent id is registered with that handle. A present id leaves the registry exactly as it was, because `TryAdd` does not overwrite. The invariant is kept. |
| SharpbenchApi.RealtimeClientsNotifier.TrySendToClient | server/RealtimeClientsNotifier.cs:66-87 | The result is true exactly when the id is registered and its socket is open. Unknown id: nothing changes. Closed socket: only that entry is removed, its handle is completed, nothing is sent. Open socket: the whole payload goes out as one complete text frame and the registry is unchanged. The invariant is kept. |
| SharpbenchApi.RealtimeClientsNotifier.SendMessageToClient | server/RealtimeClientsNotifier.cs:35-39 | The same outcome as a targeted send of the message's whole payload. |
| SharpbenchApi.RealtimeClientsNotifier.BroadcastRawMessage | server/RealtimeClientsNotifier.cs:54-64 | Afterwards the registry holds exactly the entries whose sockets were open. Each of them received the message exactly once as a complete text frame. Each closed entry was removed and its handle completed, with no frame sent. The invariant is kept in any enumeration order. |
| SharpbenchApi.RealtimeClientsNotifier.BroadcastTo | server/RealtimeClientsNotifier.cs:57-61 | One visit of the broadcast loop keeps its invariant. Entries not yet visited are untouched. Visited ones have the outcome of a targeted send. The registry holds the unvisited entries and the open visited ones. |
| SharpbenchApi.RealtimeClientsNotifier.BroadcastMessage | server/RealtimeClientsNotifier.cs:28-33 | The same outcome as a broadcast of the message's whole payload. |
| SharpbenchApi.RealtimeClientsNotifier.CloseAllClients | server/RealtimeClientsNotifier.cs:41-52 | Every entry present beforehand gets exactly one close request, with normal closure (1000) and reason "Closed", and no frame; its handle is completed. Afterwards the registry is empty. On an empty registry nothing but the (already empty) map is touched. |
| SharpbenchApi.RealtimeClientsNotifier.CloseEntry | server/RealtimeClientsNotifier.cs:44-48 | One visit of the shutdown loop keeps its invariant. Entries not yet visited are untouched and have uncompleted handles. Visited ones are closed with normal closure and have their handles completed. |
| SharpbenchApi.RealtimeClientsNotifier.BroadcastAfterCloseSendsNothing | server/RealtimeClientsNotifier.cs:41-64 | After `CloseAllClients`, a broadcast reaches nobody. No socket that was registered gets a frame, and each has exactly the shutdown outcome. |

## Left out

- Redis itself (connections, `IDatabase`, `ISubscriber`, StackExchange.Redis). The list is a field, and a pub/sub delivery is a call to `OnJobsMessage`. Publication in `SubmitJob` is best effort and not modelled. Its effect on a consumer appears in a tick as the number of publications delivered while the pass is suspended (`deliveries`) and the flag `deliveredWhileWaiting`.
- RedisHelpers.GetJobKey and RedisHelpers.JobKeyToId are not part of this model. The queue carries them as two arbitrary functions, `keyOf` and `idOf`, and nothing assumes either undoes the other. In the scripts, producers appear directly as the entry keys they push.
- SharpbenchCore.ListenForJobs: the model fixes the points where other code can act. Producers push and publications arrive only while a pass is suspended after its pop, or while it waits. Pushes or deliveries that land between two awaits elsewhere within a pass are not modelled separately.
- The five-second timeout of `WaitOne` is not modelled as time. Whether a wait ends by the signal or by the timeout is decided by the script. Either way the signal is unset afterwards.
- `IAsyncEnumerable`, `yield return` and Task scheduling. The loop returns the ids it yields, in order, when the script reaches a cancelled pass. The consumer of the stream does not interleave with it.
- Concurrency: competing consumers on one list, concurrent sends to one socket, and the thread safety of `ConcurrentDictionary` and `Task.WhenAll`. The broadcast and shutdown loops are modelled as sequential visits of the ids present when they start.
- SharpbenchApi.RealtimeClientsNotifier.CloseAllClients: modelled as one step that finishes before any other operation starts. In the code, the entries stay registered with completed handles while `Task.WhenAll` is awaited (server/RealtimeClientsNotifier.cs:47-51), until `Clear` runs. A broadcast or send that runs in that window and finds a socket whose close has already completed calls `SetResult` on that handle a second time (server/RealtimeClientsNotifier.cs:74-79), which throws. The model does not capture that interleaving.
- The WebSocket transport. Socket states other than closed/not closed (for example CloseSent or Aborted) are not modelled, nor are frame encoding, the close handshake's exchange, or exceptions thrown by `SendAsync` and `CloseAsync`.
- SharpbenchApi.RealtimeClientsNotifier.RealTimeSyncWithClient: requires that a socket is not registered twice under two ids. Every real-time connection brings its own WebSocket, and the shared-socket case (two entries aliasing one socket) is not modelled.
- Logging (`ILogger`). The `JobMessage` type is not part of this model; only its `Data`, as a byte sequence, is.
