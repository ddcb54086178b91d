# Crayon coordinator, arena and dispatch: a Dafny model

Crayon schedules tasks on workers through one coordinator. This project models three parts of it and proves
what they promise in every run:

- the **coordinator state machine** (`src/coordinator.rs`, `src/resources.rs`): workers, tasks, objects, the
  runnable queue, the waiting set and the cancel-requested set;
- the **shared-memory arena** (`src/arena.rs`) with the client's chunked transfers (`src/client.rs`): an exact-fit
  allocator, reservation tokens, and a contiguous-prefix writer that tolerates duplicates;
- the **dispatch layer** (`src/cluster.rs`): the replay cache, the poll order, the `GetBatch` frame budget, and the
  handlers that work on coordinator and arena together.

## How it is built

Each part has two layers. A *value layer* (`Model`, `ArenaModel`, `Replay`) holds the state as one value and each
transition as a total function; runs are sequences of such states, and the theorems are about all of them. An *object
layer* (`Coordination.Coordinator`, `ArenaStorage.ArenaStore`, `ReplayCaching`, `Serving.Server`) holds the same state
in mutable fields; its methods follow the source statement by statement and keep the loops that change state, and
each is proved to end in the state and reply of the transition it implements. Searches and filters that change nothing
are comprehensions: `AssignedUnstarted`, `CancellationFor`, `CheckSubmission` and the set of due outputs in
`ReapTerminalTasks`. Where the source indexes a table or unwraps an option, the Dafny method indexes too, so
verification shows that no reachable state makes the program panic there.

That a method ends in the state of its transition says nothing about the transition itself. So a third set of lemmas
says what each call does in terms of the call, the tables and plain numbers, with the exact condition of every outcome,
and run theorems trace what comes out of the system back to what went in.

What a transition cannot compute is an argument: drawn ids, the clock, and the order in which a hash table is
visited. Orders are constrained only to list what the table holds, so every theorem covers every order. `born`,
`cuts` and `issued` are history that the program does not keep (ids issued, slots cut, tokens drawn); no reply
depends on them.

| files | content |
|---|---|
| `Types`, `Sums`, `Resources` | ids, errors, machine arithmetic; sums over finite sets; resource accounting |
| `Model`, `Invariants` | the coordinator's transitions; the aggregate invariant |
| `Dependencies`, `Steps`, `Admission`, `Scheduling`, `Expiry`, `Reclaim` | every transition keeps the invariant, with the exact meaning of reconcile, scheduling and reclaim |
| `Submission`, `Registration`, `Reconciliation`, `Reports`, `Leases`, `Deletes` | what each call does, told from the call and the tables and not from the transition functions |
| `Runs`, `Evolution`, `Histories`, `Progress`, `Polling` | properties of whole runs |
| `Tables`, `Provenance`, `Causes`, `Origins`, `Notices` | where tasks, assignments, objects and failures come from, in any run |
| `Reconcile`, `Eviction`, `Refinement`, `Coordinator` | the coordinator object and why its loops compute the transitions |
| `ArenaModel`, `Allocation`, `ArenaSteps`, `ArenaRuns`, `HighWater`, `Oversize` | the arena: partition, runs, tokens, streamed writes, high-water mark, sizes too large to round |
| `Reservations`, `Chunks` | what reservations, chunks and inline puts do, told from the state and the bytes |
| `ArenaStore` | the arena object |
| `Replay`, `Idempotency`, `ReplayCache`, `Batches`, `Agreement`, `Delivery`, `Server` | the dispatch layer |
| `Leaks`, `LeakExample` | when a committed arena object loses its record, and a run in which one does |
| `Transfers` | the client's transfer loops, through the handlers |

## Assumptions

- Drawn task ids, output ids and reservation tokens are fresh. Nothing is asked of leases and sessions.
- Resource quantities are non-negative, which the source does not check, and fit 64 bits; `max_attempts` fits 32 bits,
  slot counts are non-negative and request deadlines fit 64 bits, as their types say.
- BLAKE3 is a parameter: any function from bytes to digests. A digest of zero stands for "unhashed".
- Each request handler is one atomic step. The clock is read once per call.
- A client's direct write into the mapping stays inside an object it has reserved for direct writing and not yet
  committed; no token can fence such a write.
- In the theorems about arena runs a reserved size is at most 2^64 - 8. `SlotHolds` and `ReserveSoundIff` show that
  the code is sound exactly up to that size; `SameOffset` and `OversizedOverwrites` show what is lost above it: a
  larger reservation is accepted with an empty slot, shares its offset with the next slot cut, and its writes reach
  that other object's committed bytes. That is the wrap-around of a release build; with overflow checks on, the
  multiplication at `src/arena.rs:182` panics instead.
- Strings are counted in bytes, as for the ASCII names and addresses the system uses.

## Where code and documentation differ

The fencing comments suggest that every report passes the fence check. The code answers some reports before it:
`started` on a running task, `complete` on a succeeded one, `fail` on any finished one and `acknowledge_cancel` on a
cancelled one. The model follows the code; `SupersededReportsDoNothing` shows that such an answer never changes the
state. The comment on `write_chunk` speaks of returning `false`; the code returns errors, and so does the model.

The terminal-task reaper drops records without releasing arena slots. A client that commits arena bytes under the id
of a task's output therefore leaves a slot that nothing frees once the task is reclaimed. `RunLeaksIff` says exactly
when this happens, `LeakReached` is a run that does it, and `CarefulClientsLeakNothing` shows that without such a
commit or put nothing leaks.

## Model

| member | source | states |
|---|---|---|
| Resources.Subtract | src/resources.rs:52-65 | Takes all of the demand or none of it; succeeds exactly when every quantity fits, and then leaves exactly the difference. |
| Resources.AddCapped | src/resources.rs:66-87 | Returns all of it or none; succeeds exactly when no quantity would exceed the worker's total. |
| Dependencies.DoomedIsClosed | src/coordinator.rs:1108-1147 | The tasks reached by a broken dependency are closed under failure. |
| Dependencies.DoomedIsLeast | src/coordinator.rs:1108-1147 | They are the least such set, so reconciliation fails nothing else. |
| Dependencies.SettleKeepsInv | src/coordinator.rs:1108-1147 | From any consistent state reconciliation restores the full invariant, in particular that no waiting task is overdue. |
| Reconcile.QuietMeansDone | src/coordinator.rs:1108-1147 | Whatever order the tasks were visited in, once a pass changes nothing exactly the least set has been failed and exactly the ready tasks freed. |
| Reconciliation.SettleReconciles | src/coordinator.rs:1108-1147 | Afterwards every task that was waiting is judged by the records it then sees: failed with "dependency failed" if an input will never come, runnable if all are there, waiting otherwise; the outputs of the failed ones are marked and nothing else changes. |
| Reconciliation.ReconciledIsUnique | src/coordinator.rs:1108-1147 | Only one state is like that, so this says all there is to say about reconciliation. |
| Scheduling.ScanPicks | src/coordinator.rs:600-650 | The bounded scan over a queue with stale entries picks what the reference definition picks from the whole queue: the first local candidate if fewer than 16 others precede it, else the first candidate. |
| Scheduling.CandidatesCoverTable | src/coordinator.rs:574-658 | The queue holds a candidate exactly when some task anywhere in the table is runnable, due and servable. |
| Scheduling.QueueAfterIs | src/coordinator.rs:651-660 | Afterwards the passed-over candidates stand in front in their order, then what was not looked at, then the tasks this worker cannot serve. |
| Tables.OnlySchedulingReorders | src/coordinator.rs:268-275 | Only scheduling takes tasks out of the queue or moves them; every other call adds at the end at most. |
| Scheduling.AssignAgreesWithTable | src/coordinator.rs:574-687 | For a live worker with a free slot, assignment never fails and finds nothing exactly when no task in the table is runnable, due, offered and within what is free. Otherwise it takes the first such task of the queue that has an input owned by the worker and fewer than 16 others before it, or else the first such task; the answer carries that task's own operation, arguments, output and resources under the next attempt and the drawn lease, and exactly that is booked. |
| Invariants.HeldCanGiveBack | src/coordinator.rs:1185-1197 | Conservation implies that handing a held booking back cannot fail. |
| Invariants.AvailableWithinTotal | src/coordinator.rs:659-673 | Conservation implies that no worker ever has more free than its total. |
| Submission.SubmitAcceptedIff | src/coordinator.rs:454-506 | A submission is accepted exactly when attempts are allowed, both tables have room, the operation is known, every argument can be used and some live worker that offers the operation is large enough; a refusal changes nothing. |
| Submission.SubmitFiles | src/coordinator.rs:507-549 | An accepted task is filed with exactly the operation, arguments, output, resources and attempts of the call, its output reserved under the operation's codec; it waits exactly when an input is still to be produced and else joins the end of the queue; nothing else changes. |
| Submission.SubmitErrorsAreTrue | src/coordinator.rs:454-506 | A refusal names a true reason: the missing object, the broken dependency, the unknown operation, the full table. |
| Registration.RegisterEffect | src/coordinator.rs:282-351 | A registration is granted exactly when address, slots and operations are good and the node is new or described as before; a new worker is filed as described with everything free, a known one only has its lease renewed. |
| Registration.HeartbeatEffect | src/coordinator.rs:352-364 | A heartbeat is accepted exactly from the registered session and moves its lease to now plus the lease time. |
| Registration.DrainEffect | src/coordinator.rs:989-994 | A drain is accepted exactly from the registered session and takes the worker out of service. |
| Reports.StartedEffect | src/coordinator.rs:688-707 | A start report makes exactly the holder's assigned task run. |
| Reports.CompleteEffect | src/coordinator.rs:708-780 | A completion takes effect exactly when it comes from the holder of an assigned or running task and fits digest, output, codec, address and size; then the task has succeeded, the output is filed exactly as reported, bytes included, and dependants are judged. A repeat is granted exactly when it agrees with what is filed. |
| Reports.FailEffect | src/coordinator.rs:786-838 | After a passed fence check on an assigned or running task the task is queued again, not before now plus min(100 * 2^(n-1), 30000), exactly when the failure is transient and attempts are left; else it has failed with the worker's message, its output is marked and dependants are judged. The answer is true exactly in the second case. |
| Reports.AckCancelEffect | src/coordinator.rs:1010-1042 | Exactly the holder of a task that was asked to stop can acknowledge it; task and output are then cancelled and dependants judged. |
| Reports.CancelEffect | src/coordinator.rs:1043-1062 | A task nobody holds is cancelled at once and its dependants judged; a held one is only asked to stop; a finished one is refused. |
| Leases.ExpireEffect | src/coordinator.rs:839-913 | An expiry removes exactly the workers whose deadline is not after now. Their tasks are cancelled if that was asked for, queued again after the backoff if attempts are left, and failed otherwise; what they owned is served from inline bytes or lost; dependants are judged; everything else stays. |
| Leases.LiveWorkersKeepTheirs | src/coordinator.rs:839-913 | A worker whose lease still runs keeps every task it holds and every object it owns. |
| Leases.LeaseDecides | src/coordinator.rs:839-846 | In any run a worker last registered or renewed at T for L milliseconds is registered exactly as long as every expiry since came before T + L. |
| Runs.NextKeepsInv | src/coordinator.rs:282-1147 | Every transition keeps the aggregate invariant: tasks, outputs, queue, index sets, holders, conservation of slots and resources, attempt bounds, lineage, caps and settledness. |
| Runs.RunInv | src/coordinator.rs:202-261 | The invariant holds in every state of every run from a fresh coordinator. |
| Reclaim.ReapExact | src/coordinator.rs:921-957 | The reaper removes exactly the tasks whose stamp is at least the retention time old and whose output no unfinished task uses; every release succeeds and the count is exact. |
| Deletes.ReapEffect | src/coordinator.rs:921-957 | A task is dropped exactly when it is finished, was found so at least 600000 ms ago and no unfinished task has its output as an argument; its output goes with it, the count is exact, and tasks that stay change only their stamp. |
| Deletes.ReleaseEffect | src/coordinator.rs:1063-1095 | A release is refused exactly while the object is to be produced or is an argument of an unfinished task; else exactly the object and its producer go, and a registered owner gets one more delete at the end of its queue. |
| Deletes.DeleteReachesOwner | src/coordinator.rs:1063-1107 | In any run, when an object goes that a worker owns, the delete stays queued for as long as the worker stays and polls, until a poll is answered with it. |
| Deletes.DeleteWasReleased | src/coordinator.rs:1063-1107 | And a worker is told to delete only what it owned and was since released or reclaimed. |
| Histories.ReapedAfterRetention | src/coordinator.rs:921-957 | In any run a task reaped at time T was found finished by a reaper run at least 600000 ms before T. |
| Histories.ReclaimedByThen | src/coordinator.rs:921-957 | With a reaper clock that never runs backwards, a task found finished at a positive time is gone after any reaper run at least 600000 ms later, unless its output is in use. |
| Evolution.NextEvolves | src/coordinator.rs:282-1147 | Each transition moves each task along at most one edge of the state diagram, removes only finished tasks and unneeded objects, and never rewrites a resolved object's contents. |
| Provenance.TaskAsSubmitted | src/coordinator.rs:522-541 | In any run every task in the table was submitted earlier and still has exactly the operation, arguments, output, demand and attempts of that call. |
| Provenance.HandedOutAsSubmitted | src/coordinator.rs:659-687 | In any run every assignment a worker is sent, new or repeated, carries exactly what was submitted for that task, under an attempt number the client allowed. |
| Provenance.ReportFollowsHandOut | src/coordinator.rs:1166-1184 | In any run a report passes for a task's holder only if this very session was sent this very fence before. |
| Provenance.WorkerAsRegistered | src/coordinator.rs:282-351 | In any run every registered worker has the address, totals, slots and operations of an earlier granted registration. |
| Provenance.NeverOvercommitted | src/coordinator.rs:651-673 | In any run what clients asked for the tasks a worker holds adds up to no more than it registered with, for every resource, and it holds no more tasks than slots. |
| Provenance.DrainedTakesNothing | src/coordinator.rs:574-582 | In any run a drained worker never gets another task while it stays registered. |
| Causes.FailureHasCause | src/coordinator.rs:786-913 | In any run a failed task failed for a reason that fits its message: a permanent report of its holder, any report on the last attempt, a lease that ran out on the last attempt, or an input that will never come. |
| Causes.ResolveMeans | src/coordinator.rs:436-453 | A read gives the record's own contents exactly when it is available, "pending" exactly while an unfinished task is to produce it, and "lost" exactly when it is lost. |
| Origins.StoredAsWritten | src/coordinator.rs:368-431 | In any run every stored object was written by an earlier put, arena registration or completion and still has exactly those contents; only its owner can go. |
| Origins.ResolvedAsWritten | src/coordinator.rs:436-453 | So whatever a reader is sent, some call gave exactly that codec, size, checksum and bytes. |
| Origins.LostHasCause | src/coordinator.rs:890-899 | In any run an object is lost only through an expiry of its owner's lease while nothing but that worker had its bytes. |
| Origins.PutStaysReadable | src/coordinator.rs:368-382 | In any run a newly put object resolves to exactly its bytes until it is released. |
| Notices.WaitersMissNothing | src/cluster.rs:303-310 | In any run the revision never moves back, and while it stands still no read and no task state has a new answer. |
| Histories.FenceNeverReturns | src/coordinator.rs:659-668 | A fence that has stopped being current never passes a fence check again in the run, whoever presents it. |
| Histories.SupersededReportsDoNothing | src/coordinator.rs:688-838 | From then on a report that carries it changes nothing, even where it is answered with success. |
| Histories.TerminalIsFinal | src/coordinator.rs:688-913 | In any run a finished task never changes state again, and a removed one's id is never in use again. |
| Histories.CompletedOnce | src/coordinator.rs:708-780 | In any run at most one completion of a task takes effect. |
| Histories.BoundedProgress | src/coordinator.rs:659-668 | In any run a task changes state at most 4 * max_attempts + 1 times; it went from runnable to assigned exactly as often as its attempt number says, never more than max_attempts. |
| Histories.BackoffIsCappedExponential | src/coordinator.rs:68-72 | The clamped shift equals min(100 * 2^(n-1), 30000) for every attempt n and cannot overflow. |
| Histories.RetrySpacing | src/coordinator.rs:823-828 | In any run, if a held task becomes runnable again at time T, by report or by lease expiry, and later goes from runnable to assigned under the next attempt number, that is not before T plus the backoff of the ended attempt. |
| Histories.AvailableIsImmutable | src/coordinator.rs:392-431 | While an available object exists, its codec, size, checksum and bytes never change. |
| Histories.NeededObjectsStay | src/coordinator.rs:1063-1107 | No transition removes an object that an unfinished task produces or names. |
| Progress.NoDeadlock | src/coordinator.rs:489-546 | A waiting task's inputs are all present, pending or available, and following pending ones reaches a task that is runnable or in a worker's hands. |
| Progress.EveryWayEndsActive | src/coordinator.rs:489-546 | So does every way of following them: it can go on from a waiting task, and any other task it reaches is runnable or in a worker's hands. |
| Progress.WaitChainsAreShort | src/coordinator.rs:489-546 | Every chain of pending inputs is shorter than the submission rank of its first task, so there is no cycle. |
| Progress.ReportsNeverTripBookkeeping | src/coordinator.rs:708-838 | After a passed fence check the hand-back succeeds, the output exists and is reserved, and the operation is known. |
| Polling.RunErrorsChangeNothing | src/coordinator.rs:282-1107 | In every run a call answered with an error leaves the state exactly as it was. |
| Polling.OneUnstartedInEveryRun | src/cluster.rs:474-501 | When work is handed out only by polls, no worker ever holds two unstarted tasks. |
| Polling.PollRedelivers | src/cluster.rs:474-501 | With no delete or cancellation pending, a worker with an unstarted task gets exactly that task's operation, arguments, output and resources under its current fence, and the poll changes nothing. |
| Polling.PollIsRepeatable | src/cluster.rs:474-501 | A poll that hands out work is answered identically when repeated at any later time. |
| Provenance.PollOrder | src/cluster.rs:474-501 | With no delete queued, a stranger is refused; a task the session is to stop comes first, then one it has not started, each under its current fence and without a change; only then is new work looked for. |
| Coordination.Coordinator.constructor | src/coordinator.rs:244-262 | A fresh coordinator is empty and satisfies the invariant. |
| Coordination.Coordinator.ReconcileDependencies | src/coordinator.rs:1108-1147 | Terminates, and fails exactly the least set and frees exactly the ready tasks. |
| Coordination.Coordinator.CheckFence | src/coordinator.rs:1166-1184 | Accepts exactly the current holder's identity, lease and attempt. |
| Coordination.Coordinator.Release | src/coordinator.rs:1185-1197 | Hands slot and resources back, or refuses and changes nothing. |
| Coordination.Coordinator.Started | src/coordinator.rs:688-707 | Implements the start report and keeps the invariant. |
| Coordination.Coordinator.Complete | src/coordinator.rs:708-780 | Implements the completion report with the settling of dependants, and keeps the invariant. |
| Coordination.Coordinator.Fail | src/coordinator.rs:786-838 | Implements the failure report: retry with backoff or permanent failure, and keeps the invariant. |
| Coordination.Coordinator.MarkRunnable | src/coordinator.rs:268-275 | Queues a task whose attempt ended, with its backoff deadline. |
| Coordination.Coordinator.AcknowledgeCancel | src/coordinator.rs:1010-1042 | Implements the cancel acknowledgement and keeps the invariant. |
| Coordination.Coordinator.Cancel | src/coordinator.rs:1043-1062 | Implements cancellation of held and unheld tasks and keeps the invariant. |
| Coordination.Coordinator.Register | src/coordinator.rs:282-351 | Implements registration, renewal and its refusals, and keeps the invariant. |
| Coordination.Coordinator.Heartbeat | src/coordinator.rs:352-364 | Renews the lease of a known identity and nothing else. |
| Coordination.Coordinator.Drain | src/coordinator.rs:989-994 | Marks a known worker as draining and nothing else. |
| Coordination.Coordinator.AdmitObject | src/coordinator.rs:392-431 | Files a new object, accepts an identical one, refuses a conflicting one or a full table. |
| Coordination.Coordinator.Put | src/coordinator.rs:368-382 | Files inline bytes under their own digest. |
| Coordination.Coordinator.ResolveObject | src/coordinator.rs:436-453 | Answers what a reader is told; an available record is never missing a part. |
| Coordination.Coordinator.Submit | src/coordinator.rs:454-549 | Implements admission and entry of a task with its reserved output, and keeps the invariant. |
| Coordination.Coordinator.AssignNext | src/coordinator.rs:574-687 | The pop, requeue and booking loops end in the state and reply of the scheduling transition. |
| Coordination.Coordinator.CancellationFor | src/coordinator.rs:995-1009 | Returns the fence of some held task asked to cancel, if there is one. |
| Coordination.Coordinator.AssignedUnstarted | src/coordinator.rs:550-573 | Returns some unstarted assignment of the worker, if there is one. |
| Coordination.Coordinator.TakePendingDeletes | src/coordinator.rs:1096-1098 | Hands over and forgets the deletes queued for a worker. |
| Coordination.Coordinator.Poll | src/cluster.rs:474-501 | Deletes, then cancellations, then redelivery, then new work. |
| Coordination.Coordinator.ReleaseObject | src/coordinator.rs:1063-1095 | Refuses a reserved or used object; otherwise removes it with its producer and queues a delete for a registered owner. |
| Coordination.Coordinator.ReapTerminalTasks | src/coordinator.rs:921-957 | The stamping, collecting and releasing loops end in the state and count of the reclaim transition. |
| Coordination.Coordinator.ExpireWorkers | src/coordinator.rs:839-913 | Evicting workers, tasks and objects one at a time ends in the state of evicting them all at once, then reconciled. |
| Allocation.SlotHolds | src/arena.rs:182 | The rounded slot is positive and large enough exactly when the size is at most 2^64 - 8, and never 8 bytes more than needed. |
| Oversize.OversizedReservation | src/arena.rs:182-234 | Any larger size is accepted with an empty slot at the top, which cannot hold the object. |
| Oversize.ReserveSoundIff | src/arena.rs:174-234 | A reservation keeps the arena invariant exactly when its size is at most 2^64 - 8 or the arena already keeps an unexpired object under that id. |
| Oversize.SameOffset | src/arena.rs:199-212 | The next slot cut from the top starts where the oversized object does while both are live, so live objects are no longer separate. |
| Oversize.OversizedOverwrites | src/arena.rs:331-368 | From any arena with nothing to reap, a chunk accepted under the oversized object's own token then replaces the bytes of another, committed object. |
| Allocation.Partition | src/arena.rs:79-112 | Every byte below the high-water mark belongs to exactly one live or recycled slot, and no byte above it does. |
| Allocation.ObjectInSlot | src/arena.rs:182-234 | A live object fits its aligned slot, inside the arena. |
| Reservations.ReserveEffect | src/arena.rs:174-234 | An id that is committed or was touched less than 60000 ms ago gets the same place again if the same object is asked for, and is a conflict if not. A new reservation is granted exactly when a slot of that size is recycled, given up by an idle reservation, or fits the 64 GiB; it starts empty under the drawn token. Other objects stay exactly if they are not idle. |
| Reservations.ReserveReuses | src/arena.rs:199-212 | A new reservation takes the slot of its size that was recycled last, and cuts a new one at the top only when there is none. |
| Chunks.ChunkEffect | src/arena.rs:331-368 | A chunk is accepted exactly when its token may write, it lies inside the object, and it continues what is written or repeats it byte for byte; then the object holds it. A refused chunk changes nothing. |
| Chunks.CommitEffect | src/arena.rs:236-253 | A commit is granted exactly under the current token and, for a streamed object, once every byte has arrived; the object then reads as what is in its slot. |
| Chunks.AcceptedChunkIsServed | src/arena.rs:331-368 | In any run an accepted chunk is part of the object that its token commits. |
| Chunks.PutReadsBack | src/arena.rs:268-285 | An inline put that gets a place reads back as it was put; a committed object is left as it is. |
| ArenaRuns.RunArenaInv | src/arena.rs:174-404 | The partition and the entry invariants hold in every state of every run. |
| ArenaRuns.TokenNeverReturns | src/arena.rs:214-230 | A drawn token that is not current for an object never becomes current for it again. |
| ArenaRuns.StaleTokenRefused | src/arena.rs:236-264 | From then on it can neither write, commit nor roll back; each attempt is refused and changes nothing. |
| ArenaRuns.CommittedBytesStay | src/arena.rs:312-324 | A committed object reads the same until it is released, whatever happens to other objects. |
| ArenaRuns.ReapSpares | src/arena.rs:96-111 | The reaper takes a reservation exactly when it is uncommitted and idle for the whole retention time. |
| ArenaRuns.StreamedRoundTrip | src/arena.rs:331-368 | If only pieces of one payload arrive under a token, in any order and number amid any other calls, a committed object reads back as that payload. |
| HighWater.CutsArePeaks | src/arena.rs:199-212 | As many slots of a size are ever cut as were live at once. |
| HighWater.HighWaterMark | src/arena.rs:162-168 | In every run the high-water mark equals the sum over slot sizes of the size times the peak number of live slots of that size. |
| ArenaStorage.ArenaStore.constructor | src/arena.rs:123-151 | A fresh arena is empty and satisfies the invariant. |
| ArenaStorage.ArenaStore.Reap | src/arena.rs:96-111 | Returns exactly the expired reservations to their free lists. |
| ArenaStorage.ArenaStore.Reserve | src/arena.rs:174-234 | Reaps, then repeats, refuses or allocates a reservation, for every 64-bit size; the arena stays sound exactly when the size can be rounded or the id is already kept. |
| ArenaStorage.ArenaStore.Commit | src/arena.rs:236-253 | Commits under the current token, for a streamed object only when it is complete. |
| ArenaStorage.ArenaStore.Rollback | src/arena.rs:255-264 | Recycles a committed object under its own token and nothing else. |
| ArenaStorage.ArenaStore.Put | src/arena.rs:268-285 | Reserves, copies and commits, or finds the object committed. |
| ArenaStorage.ArenaStore.WriteAt | src/arena.rs:291-296 | Overwrites exactly the given range of the mapping. |
| ArenaStorage.ArenaStore.WriteChunk | src/arena.rs:331-368 | Extends the written prefix, accepts an identical repeat, and refuses everything else without a change. |
| ArenaStorage.ArenaStore.Read | src/arena.rs:312-324 | Returns the bytes of a committed object only. |
| ArenaStorage.ArenaStore.ReadChunk | src/arena.rs:375-392 | Returns a range of a committed object when it lies inside it. |
| ArenaStorage.ArenaStore.Release | src/arena.rs:399-404 | Recycles the slot and keeps the partition. |
| Transfers.PutChunked | src/client.rs:122-166 | Through the handlers, the chunk loop stores and registers exactly the payload even when earlier chunks arrive again; it fails exactly when the arena is exhausted or the object table is full. |
| Transfers.GetChunked | src/client.rs:485-513 | The fetch loop returns the requested prefix exactly when the object is committed and large enough. |
| Transfers.StoreAndFetch | src/client.rs:616-631 | What was streamed in comes back whole, and the client's check of it never fails. |
| Replay.RunCacheInv | src/cluster.rs:79-109 | In every state of every run the byte counter equals the sum over entries and the table is within its cap. |
| Replay.ServeKeeps | src/cluster.rs:79-109 | Every request keeps it so. |
| Replay.RemoveKeeps | src/cluster.rs:85-89 | Removal keeps the counter exact and never below zero. |
| Replay.SweepKeeps | src/cluster.rs:97-108 | So does the sweep. |
| Replay.AtMostOnce | src/cluster.rs:348-409 | With a clock that never runs backwards, an id is dispatched again only at the first dispatch's deadline or 30 seconds after it, whichever is first. |
| Replay.RetryIsReplayed | src/cluster.rs:359-375 | Before that a retry with the same body hash gets the stored reply and any other is refused; neither touches state or cache. |
| Idempotency.RetryRunsNothing | src/cluster.rs:348-409 | In any run a submit, batch submit, cancel or release that was answered is not run again when its id arrives again before its deadline and within 30000 ms: the repeat changes nothing and, under the current epoch, gets the first answer if its body hashes the same and is refused if not. |
| Idempotency.RememberedAs | src/cluster.rs:390-408 | What is remembered is the answer, its size and the hash of the body, until the deadline but at most 30000 ms. |
| Idempotency.EntriesArePriced | src/cluster.rs:391-408 | In any run every entry is priced at the size of the reply it holds. |
| Idempotency.OthersAlwaysRun | src/cluster.rs:863-873 | Every other kind of request runs each time it arrives and leaves the cache alone. |
| Idempotency.EpochFences | src/cluster.rs:811-829 | Exactly the requests that change something are refused, without a change, when they lack the current epoch. |
| Idempotency.TurnedAwayIffFull | src/cluster.rs:376-390 | A request that runs once is turned away for lack of room exactly when it is not remembered and the unexpired entries number 16384 or take 64 MiB, at 40 bytes more than each reply; then nothing runs. |
| ReplayCaching.ReplayCache.Sweep | src/cluster.rs:97-108 | The retain loop drops exactly the expired entries and takes exactly their cost off the counter. |
| ReplayCaching.Dispatcher.DispatchOnce | src/cluster.rs:348-409 | Implements epoch check, replay, capacity check before dispatch, and insertion. |
| Batches.GetBatch | src/cluster.rs:639-676 | The reply fits one frame, has one slot per id in order, and replaces a slot exactly when it would leave too little room for the rest. |
| Batches.OnlyPayloadsReplaced | src/cluster.rs:639-676 | Only successful payloads are ever replaced. |
| Batches.ReadyCountIsExact | src/cluster.rs:847-858 | The ready slots of the reply are as many as the requested objects that are not pending. |
| Batches.ReadyMeansProduced | src/cluster.rs:847-858 | In a sound state that is the number of requested objects that no unfinished task is still to produce. |
| Batches.CompleteIffReserveFits | src/cluster.rs:655-675 | The reply holds every object exactly when at each slot the objects so far and a 44-byte note for each later one fit the frame. |
| Batches.TightBatchIsCut | src/cluster.rs:655-675 | Fitting one frame is not enough: two payloads and an object that cannot be served, filling it exactly, lose the second payload. |
| Batches.TightBatchReached | src/cluster.rs:655-675 | A run reaches such a batch: inline puts of 65268 and 8323072 bytes, and an unknown id. |
| Batches.BatchReady | src/cluster.rs:847-858 | Counts the slots that are no longer pending. |
| Agreement.HandleKeeps | src/cluster.rs:555-798 | Every handler keeps both invariants and the agreement of object table and arena. |
| Agreement.CommitAgrees | src/cluster.rs:724-744 | Rolling back a refused registration strands no record. |
| Agreement.RunAgrees | src/cluster.rs:555-798 | In every run each available object without owner or inline bytes has a committed arena entry with its codec, size and checksum. |
| Agreement.OfferedIsReadable | src/cluster.rs:677-699 | So its bytes can be read from the arena, in full. |
| Agreement.BackedBytesStay | src/cluster.rs:555-798 | In any run, while a record stays arena-backed, reading it gives the same bytes. |
| Delivery.PutGrantedIff | src/cluster.rs:555-586 | A put is granted exactly when it has at most 8323072 bytes and the table has room, or holds the same object already. |
| Delivery.InlineRoundTripIff | src/cluster.rs:555-586 | A newly put object is delivered as it was put exactly unless its id was committed in the arena before, without a record and with other bytes. |
| Delivery.InlineRoundTrip | src/cluster.rs:555-586 | So in any run without such a leftover, what a client puts for the first time is what a reader gets. |
| Delivery.CommitDelivers | src/cluster.rs:724-744 | A granted commit delivers exactly what was in the slot, under the codec, size and checksum it was reserved for. |
| Delivery.GrantedIsReserved | src/cluster.rs:700-723 | A grant names the place and token under which the arena has reserved exactly what was asked for; content that resolves is offered instead. |
| Delivery.DirectRoundTrip | src/cluster.rs:700-744 | Bytes written at the granted place and committed under the granted token are delivered exactly. |
| Delivery.ReleasedIsGone | src/cluster.rs:792-798 | A granted release leaves nothing to read and no slot. |
| Leaks.HandleLeaksIff | src/cluster.rs:555-798 | If every committed arena object has a record with its codec, size and checksum, a handler breaks this exactly when it is a reaper run with the output of a due task committed in the arena. |
| Leaks.RunLeaksIff | src/coordinator.rs:921-957 | In any run every committed object has had its record up to a state exactly when no such reaper run came before. |
| Leaks.CarefulClientsLeakNothing | src/cluster.rs:724-744 | In any run in which no client commits or puts under the id of a task's output, every committed object has its record. |
| Leaks.OffersAreSound | src/cluster.rs:422-430 | In any run, while every committed object has its record, an offered offset leads to exactly the committed bytes, with the codec, size and checksum named, and an unowned object without an offset comes with its bytes. |
| LeakExample.LeakReached | src/coordinator.rs:921-957 | A run reaches a committed object without a record: its id was reserved while pending, committed after the task succeeded, and the task was then reclaimed. |
| Serving.Server.Get | src/cluster.rs:630-638 | Resolves the object and replaces its bytes by an offset exactly when the arena holds it committed. |
| Serving.Server.Put | src/cluster.rs:555-586 | Files an inline object and publishes it in the arena, with the object's metadata or the refusal as reply, keeping the agreement. |
| Serving.Server.ArenaReserve | src/cluster.rs:700-723 | Offers stored content or reserves a slot, with the reply of the transition; keeps the agreement exactly when the size can be rounded, the id is already kept or the content is stored. |
| Serving.Server.ArenaCommit | src/cluster.rs:724-744 | Commits and registers, or rolls back, with the offer of the registered object or the first refusal as reply, keeping the agreement. |
| Serving.Server.PutChunk | src/cluster.rs:745-753 | Writes one chunk, passes the arena's verdict on and leaves the object table alone. |
| Serving.Server.GetChunk | src/cluster.rs:754-768 | Serves a range of at most one frame that lies inside a committed object. |
| Serving.Server.Release | src/cluster.rs:792-798 | Releases the record and, only if that is granted, the slot; answers what the coordinator answers. |

## Left out

- Sockets, framing, the connection pool, long-poll parking and shutdown: I/O and real time.
- Memory mapping, arena files and their sweep, `copy_wide`: the mapping is an array of bytes.
- BLAKE3, UUID generation and the bytes of the bincode encoding; only encoded sizes are modelled, for `GetBatch`.
- Interleavings between the arena lock and the state lock, and readers that copy while another client releases.
- `ResourceQuantity::from_units` rounding and address syntax: an address is accepted or not by an argument.
- Health, locality and retry counters, and the tallies that lease expiry reports: they influence nothing.
- The status, worker-list, `GetLocal` and `SubmitBatch` arms: easy members on top of what is modelled.
- `src/local.rs`, `src/worker.rs`, `src/data_plane.rs`, the binaries and the Python binding.
- Coordination.Coordinator.ExpireWorkers: the intermediate `Dead` mark is not written, because the record is removed in the same call.
- Coordination.Coordinator.Release: the different messages of a failed hand-back are one message, because `ReportsNeverTripBookkeeping` shows that none is ever sent.
- Agreement.HandleKeeps: treats each handler as one step, so it says nothing about two handlers in between each other's locks.
