# WazzapAgents: a verified model of action delivery

A Python agent bridge and a Node WhatsApp gateway exchange frames over a WebSocket. The gateway executes actions for
the bridge at most once per request id, across retries, lost connections, failed writes and crashes. This project
models that protocol and the smaller state machines around it, and proves what they promise.

Concurrent code is a step system: a step is what runs between two awaits, and every interleaving of steps is a run.
Beside each step system a class keeps the program's own fields and maps; each of its methods is proved to make exactly
one step, so the theorems about runs are theorems about the methods.

| files | subject |
|---|---|
| `Frames`, `Receipts`, `Dispatcher`, `DispatcherInvariant`, `DispatcherFrames`, `DispatcherTheorems`, `DispatcherDurability`, `DispatcherProgress`, `DispatcherAnswers`, `DispatcherProcess` | the durable, deduplicating action dispatcher of one account |
| `Canonical` | the canonical form behind a receipt's fingerprint |
| `PendingAcks`, `AckClient` | the client's pending acknowledgements and its retry loop, composed with the dispatcher |
| `ReliableQueue`, `ReliableTransport` | the client's bounded reliable queue with one waiter per frame |
| `AccountRegistry`, `EndToEnd` | the gateway's reliable queue to the bridge; call, queue and dispatcher composed |
| `Debounce`, `DebounceWorker` | the burst worker of one chat, in real time |
| `SendQueue` | the per-JID mutex built as a promise chain |
| `Slots`, `SlotStability`, `Supervisor` | slot assignment on both sides, when it moves nobody, and the reconciliation of sessions |
| `Names`, `Protocol`, `FrameTable` | the frame codec and its 31 frame classes |
| `SocketBuilds` | single-flight socket builds and stale sockets |
| `AuditLog`, `ReplyDedup`, `Backoff` | the compacting audit log, reply suppression, reconnect delays |

`dafny verify dfyconfig.toml` checks everything.

## Where the code differs from what it says

- The comment at `src/account/actionDispatcher.ts:240-243` says the legacy rule discards receipts of older builds. The
  code erases every complete `subrec-` receipt that holds a failed `send_message` with that text, also one written by
  the current build, and the id can then run again. `RepeatsExactlyRecoveryIds` gives the exact class of ids.
- Keys are sorted with `localeCompare`, which can call two different keys equal. Then the order in which they were
  written shows in the fingerprint; `OrderInsensitiveExactlyWithoutTies` is the exact condition.
- The join branch at `src/account/actionDispatcher.ts:1099-1113` is reachable only in the moment between a failed claim
  and the departure of the call that made it, because a claim enters the cache before anything is awaited
  (`JoinOnlyAfterFailedClaim`).
- The audit log keeps 400 entries in memory but reads back 399 (`LoadIsLast`). A partial last line is ignored on load, as
  its comment says, but also swallows the next entry that is appended behind it (`PartialLineSwallowsNext`).
- `pending.burst_started_at or now` takes clock reading zero for no reading; a burst that starts there has no hard
  deadline (`ZeroStartIsNeverDue`).
- `assign_account_slots` promises to preserve active unpinned tenants, but an account listed earlier can take a slot
  (`EarlierAccountTakesSlot`); `AllKeepExactlyWhen` is the exact condition on the account list
  under which nobody is moved.
- When a tenant is stopped while its socket is being built and that build succeeds, its registered entry has a socket
  that its context does not know
  (`StopDuringBuildSplits`); `StopBreaksExactlyDuringBuild` is the exact condition.
- A gateway failure whose code is `timeout` is retried by the client like a missing answer, and a caller that is
  cancelled while its frame is being delivered leaves its id in the map of futures without a timer; both are part of
  what `DispatchAction` states.

## Model

| member | source | states |
|---|---|---|
| `Receipts.LoadReceipts` | src/account/actionDispatcher.ts:215-259 | The loading loop decides the whole file: a missing file is empty, one malformed entry makes everything unreadable, an entry without a state is complete and one with a state of another type is malformed, and exactly the complete receipts the legacy rule names are skipped and counted |
| `Receipts.UnreadablePrefix` | src/account/actionDispatcher.ts:221-233 | A malformed entry cannot be outvoted: whatever follows it, the file is unreadable |
| `Receipts.LoadMeans` | src/account/actionDispatcher.ts:215-259 | For every file: it is readable if and only if it is missing or every record has an id, a fingerprint, frames and a state that is `running`, `complete` or absent; then each id has the receipt of the last of its records that the legacy rule spares, complete unless it says `running`, and the discarded records are counted |
| `Receipts.LoadOfSerialized` | src/account/actionDispatcher.ts:210-300 | Round trip: what a persist writes, in any order of the Map, a load reads back in full, less exactly the receipts of the legacy rule |
| `DispatcherInvariant.StepInv` | src/account/actionDispatcher.ts:1001-1173 | Every step (delivery, load, prune, write, claim answered, emit, finish, reply, leave, crash) keeps the invariant that ties cache, file, in-flight calls, captures, write queue and execution counts together |
| `DispatcherInvariant.RunInv` | src/account/actionDispatcher.ts:1001-1173 | The invariant holds after every run of interleaved steps |
| `DispatcherTheorems.AtMostOnce` | src/account/actionDispatcher.ts:1001-1173 | Over every run from every file, with retries, duplicates, failed writes and crashes at any await: an id starts to execute at most once more often than the legacy rule erased it, and at most once when it is no `subrec-` id |
| `DispatcherTheorems.ClaimIsDurableBeforeExecution` | src/account/actionDispatcher.ts:1115-1146 | While an id executes, its running claim, with its fingerprint, is already in the file |
| `DispatcherTheorems.RecoveryIdCanRepeat` | src/account/actionDispatcher.ts:193-262 | For every `subrec-` id there is a run that executes it twice: it fails with the text of the legacy rule, the process crashes, and loading erases the receipt |
| `DispatcherTheorems.RepeatsExactlyRecoveryIds` | src/account/actionDispatcher.ts:193-262 | From an empty file, some run executes an id at least twice if and only if it is a `subrec-` id |
| `DispatcherFrames.RefusalsAreHarmless` | src/account/actionDispatcher.ts:1062-1137 | No refusal the dispatcher makes itself reports success or contains the text of the legacy rule, so a refusal captured into a receipt can never make it forgettable |
| `DispatcherFrames.RunFrames` | src/account/actionDispatcher.ts:302-311 | Provenance over every run: frames in captures, receipts, the file and on the way to the client were emitted by an execution of their own id or are refusals |
| `DispatcherTheorems.SuccessMeansExecuted` | src/account/actionDispatcher.ts:1140-1164 | A success frame that reaches the client for an id was emitted by an execution of that id, in this run or before it |
| `DispatcherTheorems.RunsAtMostOnceUnlessFailed` | src/account/actionDispatcher.ts:193-262 | For every id, `subrec-` ids included: it runs at most once more often than it was erased, and it is erased only when it is a `subrec-` id and an execution of it failed in the words of the legacy rule |
| `DispatcherTheorems.SuccessMeansExactlyOnce` | src/account/actionDispatcher.ts:1140-1164 | For every id without an earlier success, a client that sees success knows the action ran, at most once more often than it was erased, and exactly once unless it is a `subrec-` id whose execution failed in the words of the legacy rule |
| `DispatcherTheorems.ForgottenForOwnFailure` | src/account/actionDispatcher.ts:193-208 | A receipt in the file is erasable only for a failure that its own execution emitted, never for a refusal it captured |
| `DispatcherTheorems.SettledForever` | src/account/actionDispatcher.ts:1071-1097 | Once file and memory agree on a receipt or claim it never changes and its id never executes, over any run in which the legacy rule does not erase it |
| `DispatcherTheorems.SettledAnswer` | src/account/actionDispatcher.ts:1071-1097 | A delivery for a settled id only sends: the receipt's frames to the same payload, a refusal to another payload or for a claim whose outcome is unknown |
| `DispatcherTheorems.CompletedOnDisk` | src/account/actionDispatcher.ts:1147-1161 | For an id that completed, the file holds its receipt or the claim of the same payload, whether or not the second persist succeeded |
| `DispatcherTheorems.CompletedWithinProcess` | src/account/actionDispatcher.ts:1147-1165 | Within one process a completed receipt never changes and its id never executes again, also when writing it failed |
| `DispatcherTheorems.CompletedAnswer` | src/account/actionDispatcher.ts:1071-1097 | A retry of a completed id sends exactly its frames, a different payload is refused, and nothing else changes |
| `DispatcherTheorems.CompletedThroughCrash` | src/account/actionDispatcher.ts:1140-1165 | Completed, then crashed, then anything: no further execution, and every later answer is the one of what the file held at the crash; which of the two that is, CrashReplaysExactlyWhenStored says |
| `DispatcherDurability.OwnWriteSettles` | src/account/actionDispatcher.ts:1153-1161 | Over every run, when the second persist of a call succeeds its receipt is settled: in the file, in memory, and final |
| `DispatcherDurability.LaterWriteStoresReceipt` | src/account/actionDispatcher.ts:278-300 | From any moment at which a call is complete: a write of any call that begins from then on and succeeds settles its receipt, whatever steps are between the serialization and the end of that write |
| `DispatcherDurability.FileHoldsReceiptExactlyWhenStored` | src/account/actionDispatcher.ts:1140-1161 | Over every run, after an execution ended, the file holds its receipt if and only if a write that began since has succeeded; until then it holds the claim |
| `DispatcherDurability.SecondPersistStores` | src/account/actionDispatcher.ts:1153-1161 | The success of the call's own second persist is such a write |
| `DispatcherDurability.CrashReplaysExactlyWhenStored` | src/account/actionDispatcher.ts:210-300 | After an execution ended, any steps, a crash, and any run: the id never executes again, and a retry of its payload is sent the receipt's frames if and only if a write begun since had succeeded, and the refusal otherwise; the exception is a stored failure that the legacy rule has erased |
| `DispatcherDurability.PersistedIsReplayed` | src/account/actionDispatcher.ts:1153-1161 | When the second persist succeeded, every retry after the crash is answered with the receipt's frames |
| `DispatcherDurability.NeverErased` | src/account/actionDispatcher.ts:244-250 | A settled receipt that the legacy rule does not name, a claim included, is never erased over any run |
| `DispatcherTheorems.JoinOnlyAfterFailedClaim` | src/account/actionDispatcher.ts:1099-1113 | The join branch is reached only for a call whose claim failed and which is about to leave |
| `DispatcherProgress.FlightCanFinish` | src/account/actionDispatcher.ts:1115-1172 | From every reachable state, a call in flight runs to its end in some continuation without a crash in which all writes succeed; what it is answered on the way, EveryCallCanBeAnswered says |
| `DispatcherAnswers.EveryCallIsAnswered` | src/account/actionDispatcher.ts:1115-1172 | Over every run: once a call that claimed its id has left, the client was sent one consecutive block, told from the events alone: if the write of its claim failed, the refusal; otherwise exactly the frames that its execution emitted and the refusals addressed to it while it executed, in their order |
| `DispatcherAnswers.EveryCallCanBeAnswered` | src/account/actionDispatcher.ts:1115-1172 | However far a call has come without a crash, some continuation sends it exactly that answer and lets it leave |
| `DispatcherProcess.ActionDispatcher.constructor` | src/account/actionDispatcher.ts:163-167 | A new process starts on whatever file it finds, with empty maps, in a state that satisfies the invariant |
| `DispatcherProcess.ActionDispatcher.SendFrame` | src/account/actionDispatcher.ts:302-311 | A frame goes into the open capture of its id, otherwise to the client |
| `DispatcherProcess.ActionDispatcher.SendReceipt` | src/account/actionDispatcher.ts:1093-1095 | The loop hands over all frames of a receipt in order |
| `DispatcherProcess.ActionDispatcher.StartLoading` | src/account/actionDispatcher.ts:215-268 | Loading installs the cache at once, unless receipts must be discarded first |
| `DispatcherProcess.ActionDispatcher.PruneWritten` | src/account/actionDispatcher.ts:260-276 | The rewritten file is the kept receipts; a failed rewrite leaves the file and fails the load |
| `DispatcherProcess.ActionDispatcher.RefuseUnconnected` | src/account/actionDispatcher.ts:1013-1036 | An account that is not connected answers with a failed ack and an error frame and leaves no claim |
| `DispatcherProcess.ActionDispatcher.Dispatch` | src/account/actionDispatcher.ts:1071-1124 | One delivery: refusal, replay, join or claim, with exactly the state each leaves |
| `DispatcherProcess.ActionDispatcher.Written` | src/account/actionDispatcher.ts:278-300 | The oldest write replaces the file by the cache it serialized, or leaves it, and tells its own caller |
| `DispatcherProcess.ActionDispatcher.ClaimAnswered` | src/account/actionDispatcher.ts:1123-1143 | A persisted claim opens the capture and starts execution; a failed one is taken back and refused |
| `DispatcherProcess.ActionDispatcher.Executed` | src/account/actionDispatcher.ts:1140-1155 | The captured frames become the complete receipt, and its write is queued |
| `DispatcherProcess.ActionDispatcher.ReceiptAnswered` | src/account/actionDispatcher.ts:1154-1165 | The receipt's frames are sent whether or not its write succeeded |
| `Canonical.SortThenCanon` | src/account/actionDispatcher.ts:173-183 | Sorting entries before canonicalizing their values, as the program does, gives the same object as the reverse order of the two |
| `Canonical.EqualCanonMeansSame` | src/account/actionDispatcher.ts:173-187 | Values with one canonical form are equal up to key order at every depth |
| `Canonical.SameMeansEqualCanon` | src/account/actionDispatcher.ts:173-187 | Without tied keys, values equal up to key order have one canonical form |
| `Canonical.CanonDecides` | src/account/actionDispatcher.ts:173-187 | Without tied keys the canonical forms of two values are equal exactly when the values are equal up to key order at every depth |
| `Canonical.CanonIdempotent` | src/account/actionDispatcher.ts:173-183 | Canonicalizing twice is canonicalizing once |
| `Canonical.SortStable` | src/account/actionDispatcher.ts:176-180 | Members whose keys tie keep their order |
| `Canonical.OrderInsensitiveExactlyWithoutTies` | src/account/actionDispatcher.ts:173-187 | The canonical form is independent of key order if and only if no object in the value has two keys that compare as equal |
| `ReliableQueue.OpKeeps` | python/wasocket/transport.py:217-376 | Every operation keeps: at most 1000 frames, one future per frame, order of submission across wire and queue, and every submission written, queued or lost for a recorded reason |
| `ReliableQueue.DeliveredInOrder` | python/wasocket/transport.py:217-300 | Over every run: frames reach the socket in order of submission, each at most once, and a future is told of a delivery exactly when its frame was written before its caller gave up |
| `ReliableQueue.LostForever` | python/wasocket/transport.py:217-376 | A frame that was lost is never written later |
| `ReliableQueue.RemovedIsNeverWritten` | python/wasocket/transport.py:302-323 | A cancelled caller whose frame is queued removes that frame only, and it is never written afterwards |
| `ReliableQueue.ClearTellsEveryone` | python/wasocket/transport.py:342-348 | Closing tells every caller that still waits that the transport is closed, changes no future that was settled, writes nothing and records every queued frame as dropped |
| `ReliableQueue.DisplacedOnlyWhenFull` | python/wasocket/transport.py:251-265 | After any run, the only operation that displaces a frame is a submission that may and finds a thousand queued: it loses exactly the oldest, tells its caller, and takes the last place |
| `ReliableTransport.FlushAllKeeps` | python/wasocket/transport.py:282-300 | The flush keeps the queue's invariant at every one of its awaits, with callers giving up in between |
| `ReliableTransport.FlushWritesPrefix` | python/wasocket/transport.py:282-300 | A flush moves a prefix of the queue to the wire and keeps the unsent suffix, wherever it fails |
| `ReliableTransport.FlushWritesItsReach` | python/wasocket/transport.py:282-300 | A flush writes exactly as many frames as its awaits allow: as many as are queued, up to the first turn that finds the socket gone or whose write fails; those are the front of the queue, and the rest stays |
| `ReliableTransport.FlushCancelsNobody` | python/wasocket/transport.py:288-298 | A future that is cancelled after a flush was so before it or was cancelled by its own caller during it |
| `ReliableTransport.GoodFlushDeliversAll` | python/wasocket/transport.py:282-300 | A flush whose turns are good for the whole queue empties it and tells every caller that did not give up of the delivery |
| `ReliableTransport.WSClientTransport.SendLocked` | python/wasocket/transport.py:238-269 | What a submission does under the lock, also one that passed the closed check before a close: send when open and nothing waits, else queue or refuse |
| `ReliableTransport.WSClientTransport.SendReliable` | python/wasocket/transport.py:217-280 | A closed transport refuses; otherwise the queue, wire, futures and error of the submission, in every case |
| `ReliableTransport.WSClientTransport.FlushReliable` | python/wasocket/transport.py:282-300 | The loop writes exactly the frames within reach of its awaits, from the front, popping each and telling its caller only after its write; the wire grows by them, the queue keeps the others, and it returns how many |
| `ReliableTransport.WSClientTransport.RemoveReliableWaiter` | python/wasocket/transport.py:302-323 | Rebuilding both deques leaves all frames and waiters aligned, without the target's entry |
| `ReliableTransport.WSClientTransport.Close` | python/wasocket/transport.py:325-348 | After a best-effort flush everything left is dropped, its callers are told, and the transport is closed |
| `PendingAcks.PendingAcks.Register` | python/wasocket/correlation.py:76-95 | A fresh unsettled future is tracked under the id, with a timer of its own if wanted; an earlier future or timer of the id is overwritten, and all other ids stay |
| `PendingAcks.PendingAcks.ArmTimeout` | python/wasocket/correlation.py:97-112 | A timer is armed exactly when the id is still waiting; a settled or unknown id is left alone |
| `PendingAcks.PendingAcks.Pop` | python/wasocket/correlation.py:158-167 | The id leaves both maps and its timer is cancelled |
| `PendingAcks.PendingAcks.Settle` | python/wasocket/correlation.py:120-132 | The waiting future gets the outcome once; a late or repeated answer changes no outcome |
| `PendingAcks.PendingAcks.Route` | python/wasocket/socket.py:694-724 | An acknowledgement or error frame settles the call it names, with the outcome it carries; other frames settle nothing |
| `PendingAcks.PendingAcks.OnTimeout` | python/wasocket/correlation.py:145-156 | An expired call is rejected with a timeout and forgotten |
| `PendingAcks.PendingAcks.RejectAll` | python/wasocket/correlation.py:134-141 | On disconnect every waiting call is rejected and both maps are empty |
| `AckClient.WaSocket.AwaitAnswer` | python/wasocket/socket.py:622-626 | A written attempt ends as its first signal says: answer before or after arming, timeout, or cancellation |
| `AckClient.WaSocket.OneAttempt` | python/wasocket/socket.py:604-626 | One attempt registers, writes at most one copy and ends as its delivery and first signal say |
| `AckClient.WaSocket.DispatchAction` | python/wasocket/socket.py:598-637 | The loop retries the same frame under the same id after timeout errors only, three times at most; its result is that of the last attempt, and the id has left both maps unless the caller was cancelled, also when a cancelled call had left the id behind and its old timer runs meanwhile |
| `AckClient.ReturnsExactlyTheAckResult` | python/wasocket/socket.py:711-715 | An attempt returns a value if and only if the frame that decides it is a successful acknowledgement with that result |
| `AckClient.RaisesTheFrameCode` | python/wasocket/socket.py:694-724 | An attempt decided by a failed acknowledgement or an error frame raises the code of that frame |
| `AckClient.NothingDecided` | python/wasocket/socket.py:598-637 | An attempt that no frame decides never returns a value: it is not delivered, times out, is disconnected or cancelled |
| `AckClient.ResultMeansExactlyOnce` | python/wasocket/socket.py:598-637 | End to end with the dispatcher, for every new id: at most three copies; at most one execution, at least one when the call returns a result, and so exactly one; the value returned is the result of a successful acknowledgement that the gateway sent for this id, a code raised for a frame is the code of a frame that it sent; only a `subrec-` id whose execution failed in the words of the legacy rule may run once more for each time it was erased |
| `EndToEnd.HandedOverWasSent` | src/server/accountRegistry.ts:227-260 | An answer that a queue of the gateway hands over is one the dispatcher sent for that id |
| `EndToEnd.CallRunsOnce` | python/wasocket/socket.py:598-637 | From the call through the gateway's queue and the dispatcher and back, for every new id: a call that returns a result ran its action exactly once and returns what a successful acknowledgement for this id carried, and no call runs its action twice, with the same exception for a `subrec-` id whose execution failed in the words of the legacy rule |
| `AccountRegistry.OpKeeps` | src/server/accountRegistry.ts:127-260 | Every operation keeps: an open bound client means an empty queue, at most 1000 frames wait, and all frames are in order and accounted for |
| `AccountRegistry.FirstInFirstOut` | src/server/accountRegistry.ts:127-260 | Over any interleaving of bind, unbind, close, send and flush: frames are handed over in order before all that wait, and each frame is handed over, waiting, dropped or discarded with its entry |
| `AccountRegistry.DropsOnlyOldestWhenFull` | src/server/accountRegistry.ts:198-207 | After any run, the only operation that drops a frame is a send that finds 1000 waiting and no open client, and it drops the oldest |
| `AccountRegistry.BoundClientIs` | src/server/accountRegistry.ts:127-260 | Over every run, told from the operations alone: the bound client is that of the last bind, unless that bind failed to hand over what waited, or since then the client was unbound by its own unbind or one for whoever is bound, a send to it while open failed, or the entry was discarded; how many frames wait is told in the same way |
| `AccountRegistry.BoundClientIsServed` | src/server/accountRegistry.ts:142-147 | An open bound client stays bound through the late closes of others, and every frame that is sent while it accepts is handed to it at once and in order |
| `AccountRegistry.BindServes` | src/server/accountRegistry.ts:127-131 | After any run, binding an open client that takes all that waits binds it, empties the queue and hands over exactly what waited, in order |
| `AccountRegistry.AccountEntry.BindClient` | src/server/accountRegistry.ts:127-131 | The client is bound, and the queue is flushed to it as far as its socket goes |
| `AccountRegistry.AccountEntry.UnbindClient` | src/server/accountRegistry.ts:142-147 | Only the client that is still bound is unbound by its late close |
| `AccountRegistry.AccountEntry.SendReliableToClient` | src/server/accountRegistry.ts:227-238 | Handed over when an open client takes it, else the client is unbound and the frame queued |
| `AccountRegistry.AccountEntry.DrainQueue` | src/server/accountRegistry.ts:244-260 | The loop hands over a prefix; when a send fails the failed frame and all behind it return to the queue in order and the client is unbound |
| `Debounce.StepInv` | python/bridge/agent/batch_processor.py:1473-1535 | Every step keeps: pending payloads exist exactly while a burst start is recorded, they have a worker unless processing raised, and conservation and deadlines hold |
| `Debounce.NothingLostOrReordered` | python/bridge/agent/batch_processor.py:804-847 | Over every run the processed batches, the batch in hand and the pending payloads, one after the other, are the arrivals in order, whether taken by the worker or drained by the hybrid interrupt |
| `Debounce.TakenInTime` | python/bridge/agent/batch_processor.py:1473-1520 | However many messages keep arriving, a batch is taken by the later of a free worker and burst start plus burst maximum, when its burst did not start at clock reading zero |
| `Debounce.OpenBurstOnlyGrows` | python/bridge/agent/batch_processor.py:1682-1686 | Over any run that takes and drains nothing, an open burst keeps its start, and so its hard deadline, and its payloads grow by exactly the arrivals |
| `Debounce.NotTakenEarly` | python/bridge/agent/batch_processor.py:1503-1514 | Unless it skips the debounce or is overtaken by a new arrival, a batch is not taken before the earlier of its quiet and hard deadlines |
| `Debounce.SkipIsImmediate` | python/bridge/agent/batch_processor.py:1488-1502 | After a private message, or a prefix match in prefix or hybrid mode, that finds no batch in hand, no run lets time pass before the worker takes the pending payloads, as long as the chat stays private or the mode stays as it is |
| `Debounce.SkipCanBeTaken` | python/bridge/agent/batch_processor.py:1488-1512 | And it can be taken at once: the run without any time passing exists, and takes everything pending with the message |
| `Debounce.PendingIsServed` | python/bridge/agent/batch_processor.py:1473-1535 | Pending payloads always have a worker, unless processing raised; and whether it is about to look, waiting or busy, it can go on to take all of them |
| `Debounce.RaiseStrandsUntilArrival` | python/bridge/agent/batch_processor.py:1529-1535 | When processing raises, what is pending stays stranded over any run without an arrival, and the next arrival starts a worker for all of it |
| `Debounce.DrainBringsPayloads` | python/bridge/agent/batch_processor.py:818-840 | In every run the hybrid interrupt finds at least one payload, and appends what is pending to the batch in hand |
| `Debounce.InterruptedExactlyOnHit` | python/bridge/agent/batch_processor.py:804-838 | Over every run, told from the events alone: a routing can be interrupted if and only if a message that arrived in hybrid mode since the routing started matches one of its triggers |
| `Debounce.HitJoinsBatch` | python/bridge/agent/batch_processor.py:1687-1691 | Such a message interrupts at once, and joins the batch in hand behind all that was pending |
| `Debounce.ZeroStartIsNeverDue` | python/bridge/agent/batch_processor.py:1484-1486 | A burst that started at clock reading zero has no hard deadline, because zero counts as no reading: for every n it can be put off n rounds |
| `Debounce.HardDeadlineFailsAtZero` | python/bridge/agent/batch_processor.py:1484-1486 | Such a burst is opened by a first message at reading zero |
| `DebounceWorker.PendingChat.Enqueue` | python/bridge/agent/batch_processor.py:1680-1697 | An arrival is appended, opens a burst if none is open, sets the hybrid interrupt when it matches, and starts or wakes the worker |
| `DebounceWorker.PendingChat.ShouldSkip` | python/bridge/agent/batch_processor.py:1488-1499 | The search for a payload that skips the debounce |
| `DebounceWorker.PendingChat.ArmTimeout` | python/bridge/agent/batch_processor.py:1479-1508 | The worker ends when nothing is pending, else waits until the earlier of its two deadlines |
| `DebounceWorker.PendingChat.TimedOut` | python/bridge/agent/batch_processor.py:1516-1520 | Everything pending is taken as one batch and the burst is closed |
| `DebounceWorker.PendingChat.InterruptRouting` | python/bridge/agent/batch_processor.py:832-838 | What is pending joins the batch in hand and the burst is closed |
| `SendQueue.OneAtATime` | src/wa/sendQueue.ts:36-55 | Per JID, once a function has started all earlier calls are over, rejected ones included: at most one runs |
| `SendQueue.StartInCallOrder` | src/wa/sendQueue.ts:36-55 | The functions of one JID start in the order of their calls |
| `SendQueue.MapHoldsUnfinished` | src/wa/sendQueue.ts:45-52 | The map holds a JID exactly while some call for it is not over |
| `SendQueue.OldestCanProceed` | src/wa/sendQueue.ts:36-55 | The oldest unfinished call of a JID runs or can start, whatever other JIDs are doing: no blocking, no deadlock |
| `SendQueue.AccountContext.WithJidQueue` | src/wa/sendQueue.ts:36-41 | A call chains itself behind the slot it finds and leaves its own |
| `SendQueue.AccountContext.Finally` | src/wa/sendQueue.ts:45-52 | The entry goes unless a newer call replaced it, whether the function succeeded or rejected |
| `Slots.AssignAccountSlots` | python/bridge/account_supervisor.py:34-59 | The Python loop, with its test for repeated pins by counting |
| `Slots.NormalizeAccounts` | src/account/accountCatalog.ts:135-184 | The two Node passes, as far as slots go: repeated pins, then a slot for each account |
| `Slots.FillSlots` | src/account/accountCatalog.ts:178-184 | The second Node pass gives each account its pin or the first slot that is not used yet |
| `Slots.AllocateSlot` | src/account/accountCatalog.ts:91-96 | The least slot that is not used, or none |
| `Slots.BothAssignTheSame` | src/account/accountCatalog.ts:135-184 | With no session running, both programs assign the same slots to every list, and fail on the same lists |
| `Slots.EachInTurn` | python/bridge/account_supervisor.py:44-58 | Pins are kept; an unpinned account keeps its running slot if no pin or earlier account has it, else gets the least free one |
| `Slots.AssignedDistinct` | python/bridge/account_supervisor.py:44-58 | All assigned slots differ |
| `Slots.FailsExactlyWhen` | python/bridge/account_supervisor.py:39-55 | An assignment fails exactly when a pin is repeated or there are more accounts than the 1000 slots |
| `Slots.CountFindsRepeats` | python/bridge/account_supervisor.py:41-43 | Comparing the number of distinct pins with the number of pinned accounts finds exactly the repeated pins |
| `SlotStability.AllKeepExactlyWhen` | python/bridge/account_supervisor.py:34-59 | A successful assignment moves no running unpinned account if and only if, for each of them, no pin and no earlier running account has its slot and the newcomers listed before it are no more than the slots below its own that no pin and no running account has |
| `Slots.AppendedAccountsDisturbNobody` | python/bridge/account_supervisor.py:44-58 | New accounts behind the running ones change no running slot, unless they pin it |
| `Slots.EarlierAccountTakesSlot` | python/bridge/account_supervisor.py:44-58 | A new account listed before a running one takes its slot |
| `Supervisor.StepInv` | python/bridge/account_supervisor.py:104-186 | Every step of a reconciliation keeps the slots of running, closing and starting sessions distinct and the plan on course |
| `Supervisor.SlotsNeverCollide` | python/bridge/account_supervisor.py:104-186 | Over every sequence of reconciliations, failed starts included, no two live listeners share a slot at any await |
| `Supervisor.ReturnMeansDesired` | python/bridge/account_supervisor.py:169-186 | A normal return leaves exactly the desired accounts, each at its planned slot and node URL |
| `Supervisor.RejectedExactlyWhen` | python/bridge/account_supervisor.py:91-102 | A reconciliation changes nothing exactly when pins repeat, slots run out or two planned callbacks share a URL |
| `Supervisor.ReconcileAgainStopsNothing` | python/bridge/account_supervisor.py:169-182 | Reconciling again with an unchanged catalog gives the same plan and stops nobody while all sessions live |
| `Supervisor.EndedIsRestarted` | python/bridge/account_supervisor.py:169-186 | An account whose session had ended by itself has a live one when the reconciliation returns, unless that ends as well meanwhile |
| `Supervisor.PlannedIsUndisturbed` | python/bridge/account_supervisor.py:172-182 | A live session that the plan has at the same slot and node URL runs through a reconciliation untouched, also when starts of others fail |
| `Supervisor.ReconcileCanReturn` | python/bridge/account_supervisor.py:169-186 | An accepted reconciliation never gets stuck: from each of its awaits it can go on to a normal return |
| `Supervisor.AccountSupervisor.MakePlan` | python/bridge/account_supervisor.py:91-102 | The plan, or none when slots cannot be assigned or callbacks collide |
| `Supervisor.AccountSupervisor.BeginReconcile` | python/bridge/account_supervisor.py:169-181 | A rejected plan leaves the state as it is; an accepted one names the sessions to stop |
| `Supervisor.AccountSupervisor.BeginStop` | python/bridge/account_supervisor.py:146-149 | A session leaves the map before it is waited for |
| `Supervisor.AccountSupervisor.NextAccount` | python/bridge/account_supervisor.py:184-186 | The loop skips accounts that run and starts the next one at its planned slot |
| `Supervisor.AccountSupervisor.ListenerOpened` | python/bridge/account_supervisor.py:104-123 | An opened listener puts the session into the map; a failed one ends the reconciliation and leaves nothing behind |
| `Names.InverseExactlyWhen` | python/wasocket/protocol.py:357-365 | Camel case converts back exactly for names without capitals in which every underscore stands between something and a lower-case letter |
| `Protocol.DecodeOfEncode` | python/wasocket/protocol.py:384-429 | Decoding an encoded frame gives its registered type and all its fields, each as it returns from the wire, for payload and control frames |
| `Protocol.RoundTripExactlyWhen` | python/wasocket/protocol.py:384-429 | The frame comes back as it was if and only if each value is of its declared kind: tuples of tuple-free values where tuples are declared, tuple-free values elsewhere |
| `Protocol.UnchangedExactlyWhenPure` | python/wasocket/protocol.py:399-409 | Dumping and parsing leaves a value unchanged exactly when it contains no tuple at any depth |
| `Protocol.KwargsAreLastSpellings` | python/wasocket/protocol.py:418-428 | Exactly the declared names that the body spells are read, each from its last spelling, with a list made a tuple where one is declared; all other names are ignored |
| `Protocol.MissingGetDefaults` | python/wasocket/protocol.py:419-429 | Fields that were read keep their values, missing ones get their default, and nothing else is added |
| `Protocol.DecodeMeans` | python/wasocket/protocol.py:384-429 | A frame of a registered type decodes if and only if its body is there and spells every field without a default; then each field has the value of its last spelling, else its default, and there is no other; otherwise it raises |
| `Protocol.ToWireBody` | python/wasocket/protocol.py:368-376 | The loop that builds the wire body |
| `Protocol.ReadKwargs` | python/wasocket/protocol.py:418-428 | The loop that reads the fields: unknown names are skipped, lists become tuples where declared, the last of two spellings wins |
| `FrameTable.FramesOk` | python/wasocket/protocol.py:288-325 | The table of 31 frame classes is well formed: types are unique, field names distinct and regular, and no control event has a field that would overwrite its type |
| `FrameTable.FramesRoundTrip` | python/wasocket/protocol.py:288-429 | The round trip for every frame class of the table |
| `Backoff.DelayIsClose` | python/wasocket/transport.py:65-97 | For attempt at least 1 a delay is within 0 and the cap and within jitter and half a millisecond of the exponential delay; less than one millisecond is lost when the cap is no whole number |
| `Backoff.DelayGrows` | python/wasocket/transport.py:65-97 | For the same random draw a later attempt never waits less |
| `Backoff.ExponentialDoubles` | python/wasocket/transport.py:93-94 | The delay before jitter starts at the base and doubles with each attempt up to the cap |
| `Backoff.JitterSpreads` | python/wasocket/transport.py:95-97 | The least draw shortens a delay by the whole jitter, and the middle draw leaves it as it is |
| `Backoff.JitterGrowsWithDraw` | python/wasocket/transport.py:95 | Between two draws the delay before rounding grows by their distance times twice the jitter |
| `Backoff.DelayGrowsWithDraw` | python/wasocket/transport.py:95-97 | For the same attempt a higher draw never waits less |
| `Backoff.AttemptCountsRounds` | python/wasocket/transport.py:392-416 | The attempts are the rounds since the last one that outlasted the grace time, that one included, or since the start |
| `Backoff.FlapsNeverShrink` | python/wasocket/transport.py:392-416 | Connections accepted and then kicked before the grace time is over only raise the attempt, and never shrink the delay |
| `Backoff.Supervisor.Supervise` | python/wasocket/transport.py:392-416 | The loop waits, after each round, the delay of the rounds counted since the grace timer last fired |
| `AuditLog.FileIsEndOfLog` | src/controlPanel/auditLog.ts:46-77 | Without failed writes, after every completed write the file has at most 800 lines and ends with the last 400 entries written, in order, however compactions and records interleave |
| `AuditLog.LoadIsLast` | src/controlPanel/auditLog.ts:27-44 | A load keeps the last 399 entries, not 400, because the split leaves an empty line behind the last newline |
| `AuditLog.ReloadAtAnyMoment` | src/controlPanel/auditLog.ts:27-77 | Without failed writes, a crash at any await loses only what was not appended yet: a reload gives the last 399 of the entries that were |
| `AuditLog.PartialLineSwallowsNext` | src/controlPanel/auditLog.ts:27-67 | Behind a partial last line the next entry is lost to the file |
| `AuditLog.ReloadKeepsAllButOne` | src/controlPanel/auditLog.ts:27-44 | Once all writes are done a reload gives the list in memory, less its oldest entry exactly when it was full |
| `AuditLog.MemorySurvivesFailures` | src/controlPanel/auditLog.ts:46-82 | On any file, also one that ends in a partial line, and whichever writes fail, the list in memory is exactly the last 400 of the entries loaded and those recorded since |
| `AuditLog.ControlPanelAuditLog.constructor` | src/controlPanel/auditLog.ts:22-44 | A start on any file counts its non-blank lines and reads its entries, skipping blank lines and lines that are no JSON, a partial last line included |
| `AuditLog.ControlPanelAuditLog.RecordEntry` | src/controlPanel/auditLog.ts:51-64 | An entry is pushed, the oldest shifted out of a full list, and a write with the list as it is now is queued |
| `AuditLog.ControlPanelAuditLog.AppendLine` | src/controlPanel/auditLog.ts:64-70 | A write appends its entry behind whatever ends the file, and compacts only above a count of 800 lines |
| `AuditLog.ControlPanelAuditLog.ReplaceFile` | src/controlPanel/auditLog.ts:70-77 | The compacted file is the list as it was when the entry was recorded |
| `ReplyDedup.SuppressedExactlyWhen` | python/bridge/agent/reply_dedup.py:42-62 | With a clock that never goes back, a reply is suppressed if and only if it is long enough and one of the last `max_entries` accepted replies has its signature and is within the window |
| `ReplyDedup.WindowIsSound` | python/bridge/agent/reply_dedup.py:42-62 | The deque stays bounded, sorted and free of repeats, and accepted repeats are outside the window or have at least `max_entries` other accepted replies between them |
| `ReplyDedup.ReplyDedup.IsDuplicate` | python/bridge/agent/reply_dedup.py:42-62 | One call decides and updates the deque of its chat, and touches no other chat |
| `SocketBuilds.StepInv` | src/account/baileysFactory.ts:321-455 | Every step keeps: a build in flight is the registered one and works for an entry without a socket, and entry and context agree |
| `SocketBuilds.BuildsAreSingleFlight` | src/account/baileysFactory.ts:368-455 | While a tenant is not stopped in the middle of a build: one build in flight at most, no build overwrites a socket, and entry and context agree on the socket at every await |
| `SocketBuilds.ReplacedSocketIsInert` | src/account/baileysFactory.ts:960-971 | Whatever a replaced socket still delivers, at any later time, changes nothing |
| `SocketBuilds.BindReplacesOlder` | src/account/baileysFactory.ts:414-455 | When a build binds its socket, all older sockets of the entry are replaced for good |
| `SocketBuilds.ResumeBuildsWhenNeeded` | src/account/baileysFactory.ts:321-390 | Resuming leaves a registered entry with a socket or a build under way unless pairing cools down, and starts exactly one build exactly when there is neither a socket nor a build |
| `SocketBuilds.CanAlwaysConnect` | src/account/baileysFactory.ts:321-455 | From every state reached without a stop in a build the tenant can still come to have a socket |
| `SocketBuilds.BoundSocketReports` | src/account/baileysFactory.ts:991-1068 | An update of the bound socket sets the status of its entry and of no other; the socket is kept unless it closed, and a close that wants a rebuild starts one unless pairing cools down |
| `SocketBuilds.StopDuringBuildSplits` | src/account/baileysFactory.ts:871-908 | After a stop in the middle of a build, whatever happens before that build ends with a socket: the socket goes to the entry registered by then, whose context never learns of it, and its listeners stay dead |
| `SocketBuilds.StopBreaksExactlyDuringBuild` | src/account/baileysFactory.ts:871-908 | Stopping a tenant can break the agreement of entry and context in some continuation if and only if a build is in flight |
| `SocketBuilds.Tenant.EnsureSocketBuilt` | src/account/baileysFactory.ts:368-390 | A build starts exactly when the entry has no socket, none is in flight and pairing is not cooling down |
| `SocketBuilds.Tenant.FinishBuild` | src/account/baileysFactory.ts:414-436 | The new socket is bound to the entry that is registered now, and to the context the build started from |
| `SocketBuilds.Tenant.OnConnectionUpdate` | src/account/baileysFactory.ts:960-1068 | Updates of a socket that is not bound are ignored; a close clears both references and may start a rebuild |
| `SocketBuilds.Tenant.DetachSocket` | src/account/baileysFactory.ts:779-795 | Both references to the socket are cleared |

## Left out

- Action handlers: an execution emits any frames and can end at any time; a handler that raises emits its error frame
  like any other.
- Actions without a request id: they run without a claim and have no delivery guarantee to prove.
- More than one folder in a dispatcher: receipts, captures and in-flight calls are keyed by folder and id, so one folder
  is modelled. Two processes on one folder are excluded.
- The hash: fingerprints are compared as if it were injective. Rename is atomic, and a crash loses memory only.
- A record of the receipt file whose frames are not frames, and its numeric conversion of `completedAt`.
- The state where the account is connected or not: the refusal of an unconnected account may happen at any time.
- ReliableTransport.WSClientTransport.SendReliable: a call that has to wait for the lock after its closed check is
  `SendLocked` at the moment it gets it.
- ReliableTransport.WSClientTransport.Close: its flush and its clearing are one step; a close that clears the queue while
  the flush of another task still awaits a write on a socket that is no longer open is not modelled.
- The result of an acknowledgement is a text: the empty text stands for an absent result, which the client reads as an
  empty dictionary.
- Two calls of one id at the same time in the client: the second overwrites the future of the first, which then waits
  for its own caller.
- The fire-and-forget variant of the client call, which makes one attempt and does not wait.
- `sendToClient` and `send`, the best-effort variants that never queue.
- Exceptions inside the debounce critical sections (a database that fails while a mode is read).
- The tenant's clock going back, for reply suppression: the window is stated for clocks that do not.
- Duplicate folder paths and tokens in an account list: the loaders reject paths on both sides, and Node alone rejects
  repeated tokens. Slots are integers from 0 to 999; a JSON number such as 3.0 is read differently by the two programs.
- The catalog's serialized file mutations: a promise chain like that of `SendQueue`.
- JSON text: a text is represented by the value it parses to. Floating-point numbers, letters outside ASCII in field
  names and objects with repeated keys are not modelled.
- Backoff is over the reals: the overflow of `math.pow` at very large attempts is not modelled.
- AuditLog.FileIsEndOfLog: starts from a well-formed file, and says nothing once a write has failed, as the file then
  lacks an entry.
- Pairing codes, authentication, QR printing and the auth session files.
- Prompting, LLM calls, moderation, stickers, the control panel server and environment editing.
