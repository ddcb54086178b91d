/** The coordinator as the object it is: tables updated in place, each method proved against the
    transition it implements. Every missing-key panic of the program is an index that must exist here. */
module Coordination {
  import opened Types
  import opened Sums
  import opened Resources
  import opened Model
  import opened Invariants
  import opened Steps
  import opened Admission
  import opened Scheduling
  import opened Expiry
  import opened Reclaim
  import opened Eviction
  import opened Reconcile
  import opened Runs
  import opened Refinement

  class Coordinator {
    const epoch: Epoch
    const digest: Bytes -> Digest
    var revision: int
    var workers: map<NodeId, Worker>
    var tasks: map<TaskId, Task>
    var objects: map<ObjectId, ObjectRecord>
    var operations: map<OperationKey, OperationDescriptor>
    var pendingDeletes: map<NodeId, seq<ObjectId>>
    var runnable: seq<TaskId>
    var waiting: set<TaskId>
    var cancelRequested: set<TaskId>
    ghost var born: map<TaskId, int>

    /** The tables as one value. */
    ghost function View(): State
      reads this
    {
      State(epoch, revision, workers, tasks, objects, operations, pendingDeletes,
            runnable, waiting, cancelRequested, born)
    }

    ghost predicate Valid()
      reads this
    {
      Inv(View())
    }

    constructor (epoch: Epoch, digest: Bytes -> Digest)
      ensures Valid() && View() == Init(epoch) && this.digest == digest
    {
      this.epoch := epoch;
      this.digest := digest;
      revision := 0;
      workers := map[];
      tasks := map[];
      objects := map[];
      operations := map[];
      pendingDeletes := map[];
      runnable := [];
      waiting := {};
      cancelRequested := {};
      born := map[];
    }

    // ------------------------------------------------------------ dependencies

    /** Fails or frees one blocked task if its dependencies decide it. */
    method ReconcileOne(id: TaskId) returns (failed: bool, freed: bool)
      requires id in tasks && tasks[id].output in objects
      modifies this`tasks, this`objects, this`waiting, this`runnable
      ensures failed <==> HasBroken(old(View()), id)
      ensures freed <==> !failed && AllAvailable(old(View()), id)
      ensures View() ==
        if failed then FailedOne(old(View()), id) else if freed then FreedOne(old(View()), id) else old(View())
    {
      var deps := Deps(tasks[id]);
      failed := exists o ::
        o in deps && (o !in objects || !(objects[o].state.Reserved? || objects[o].state.Available?));
      freed := false;
      assert failed <==> HasBroken(View(), id) by {
        assert forall o :: o in deps ==> (Broken(View(), o) <==>
          (o !in objects || !(objects[o].state.Reserved? || objects[o].state.Available?)));
      }
      if failed {
        var output := tasks[id].output;
        tasks := tasks[id := tasks[id].(state := TaskState.Failed(DEPENDENCY_FAILED))];
        waiting := waiting - {id};
        objects := objects[output := objects[output].(state := ProducerFailed)];
      } else {
        freed := forall o :: o in deps ==> o in objects && objects[o].state.Available?;
        assert freed <==> AllAvailable(View(), id) by {
          assert forall o :: o in deps ==> (IsAvailable(View(), o) <==> o in objects && objects[o].state.Available?);
        }
        if freed {
          tasks := tasks[id := tasks[id].(state := Runnable)];
          waiting := waiting - {id};
          runnable := runnable + [id];
        }
      }
    }

    /** One pass over the tasks blocked at its start, in any order. */
    method ReconcilePass(ghost s: State, ghost failed: set<TaskId>, ghost freed: set<TaskId>, ghost order: seq<TaskId>)
      returns (changed: bool, ghost failed': set<TaskId>, ghost freed': set<TaskId>, ghost order': seq<TaskId>)
      requires OutputsMatch(s) && SetsMatch(s) && Reached(s, failed, freed, order, View())
      modifies this`tasks, this`objects, this`waiting, this`runnable
      ensures Reached(s, failed', freed', order', View())
      ensures if changed then waiting < old(waiting) else Settled(View()) && waiting == old(waiting)
    {
      hide OutputsMatch, SetsMatch, OnTrack, SettleBy;
      ghost var before := View();
      failed', freed', order' := failed, freed, order;
      changed := false;
      var todo := waiting;
      while todo != {}
        invariant Reached(s, failed', freed', order', View())
        invariant todo <= waiting <= before.waiting
        invariant if changed then waiting < before.waiting else View() == before
        invariant !changed ==>
          forall t :: t in before.waiting && t !in todo ==> !HasBroken(before, t) && !AllAvailable(before, t)
      {
        ghost var some := Member(todo);
        var id :| id in todo;
        todo := todo - {id};
        ReachedWaiting(s, failed', freed', order', View(), id);
        if HasBroken(View(), id) { FailReaches(s, failed', freed', order', View(), id); }
        else if AllAvailable(View(), id) { FreeReaches(s, failed', freed', order', View(), id); }
        var nowFailed, nowFreed := ReconcileOne(id);
        changed := changed || nowFailed || nowFreed;
        if nowFailed {
          failed' := failed' + {id};
        } else if nowFreed {
          freed', order' := freed' + {id}, order' + [id];
        }
      }
    }

    /** Visits the blocked tasks again and again until nothing changes: exactly the doomed ones end up
        failed and exactly the ready ones runnable. */
    method ReconcileDependencies() returns (ghost order: seq<TaskId>)
      requires OutputsMatch(View()) && SetsMatch(View())
      modifies this`tasks, this`objects, this`waiting, this`runnable
      ensures IsOrder(order, Ready(old(View())))
      ensures View() == Settle(old(View()), order)
    {
      ghost var s := View();
      ghost var failed: set<TaskId> := {};
      ghost var freed: set<TaskId> := {};
      order := [];
      StartOnTrack(s);
      var changed := true;
      while changed
        invariant Reached(s, failed, freed, order, View())
        invariant !changed ==> Settled(View())
        decreases waiting, changed
      {
        changed, failed, freed, order := ReconcilePass(s, failed, freed, order);
      }
      ReachedDone(s, failed, freed, order, View());
    }

    /** Records how a task ended and what became of its output, then settles the tasks that waited for it. */
    method Conclude(id: TaskId, task: Task, record: ObjectRecord) returns (ghost order: seq<TaskId>)
      requires OutputsMatch(Concluded(View(), id, task, record)) && SetsMatch(Concluded(View(), id, task, record))
      modifies this
      ensures IsOrder(order, Ready(Concluded(old(View()), id, task, record)))
      ensures View() == Bump(Settle(Concluded(old(View()), id, task, record), order))
    {
      tasks := tasks[id := task];
      objects := objects[task.output := record];
      order := ReconcileDependencies();
      revision := revision + 1;
    }

    // ------------------------------------------------------------ worker reports

    method CheckFence(i: WorkerIdentity, f: TaskFence) returns (ok: bool)
      ensures ok <==> FenceOk(View(), i, f)
    {
      if i.coordinatorEpoch != epoch || i.node !in workers {
        return false;
      }
      var w := workers[i.node];
      if w.state.Dead? || w.identity.workerEpoch != i.workerEpoch || w.identity.session != i.session {
        return false;
      }
      if f.task !in tasks {
        return false;
      }
      return tasks[f.task].holder == Some(Assignment(i.node, i.workerEpoch, i.session, f.lease))
             && tasks[f.task].attempt == f.attempt;
    }

    /** Hands a slot and resources back to the worker, or refuses and changes nothing. */
    method Release(node: NodeId, resources: ResourceSet) returns (ok: bool)
      modifies this`workers
      ensures ok <==> CanGiveBack(old(View()), node, resources)
      ensures View() == if ok then GiveBack(old(View()), node, resources) else old(View())
    {
      if node !in workers {
        return false;
      }
      var w := workers[node];
      if w.freeSlots >= w.slots {
        return false;
      }
      var r := AddCapped(w.available, resources, w.total);
      if r.Err? {
        return false;
      }
      workers := workers[node := w.(available := r.value, freeSlots := w.freeSlots + 1)];
      return true;
    }

    method Started(i: WorkerIdentity, f: TaskFence) returns (reply: Result<()>)
      requires Valid()
      modifies this
      ensures Valid()
      ensures Outcome(View(), reply) == Model.Started(old(View()), i, f)
    {
      hide Inv;
      ghost var s := View();
      if f.task !in tasks {
        return Err(TaskNotFound(f.task));
      }
      if tasks[f.task].state.Running? {
        return Ok(());
      }
      var fenced := CheckFence(i, f);
      if !fenced {
        return Err(StaleFence);
      }
      if !tasks[f.task].state.Assigned? {
        return Err(IllegalTransition("task not assigned"));
      }
      tasks := tasks[f.task := tasks[f.task].(state := Running)];
      revision := revision + 1;
      reply := Ok(());
      StartedKeeps(s, i, f, View());
    }

    /** The checks in front of a completion report, up to handing the booking back. */
    method CheckCompletion(i: WorkerIdentity, r: TaskCompletion) returns (v: Verdict)
      requires Valid()
      ensures v == CompleteVerdict(View(), digest, i, r) ||
        (v.Apply? && r.fence.task in tasks && !CanGiveBack(View(), i.node, tasks[r.fence.task].resources)
         && CompleteVerdict(View(), digest, i, r) == Reject(InvalidResource(RELEASE_EXCEEDS)))
      ensures v.Apply? ==> r.fence.task in tasks && tasks[r.fence.task].output in objects
    {
      if r.fence.task !in tasks {
        return Reject(TaskNotFound(r.fence.task));
      }
      var task := tasks[r.fence.task];
      if task.state.Succeeded? {
        if task.output !in objects {
          return Duplicate;
        }
        var o := objects[task.output];
        if o.state.Available? && o.checksum == Some(r.checksum) && o.size == Some(r.size) {
          return Duplicate;
        }
        return Reject(ObjectConflict(task.output));
      }
      var fenced := CheckFence(i, r.fence);
      if !fenced {
        return Reject(StaleFence);
      }
      if !(task.state.Assigned? || task.state.Running?) {
        return Reject(IllegalTransition("task cannot complete in current state"));
      }
      OutputPresent(View(), r.fence.task);
      var worker := workers[i.node];
      if task.operation !in operations {
        return Reject(OperationUnavailable(task.operation));
      }
      var descriptor := operations[task.operation];
      if r.bytes.Some? && (|r.bytes.value| != r.size || digest(r.bytes.value) != r.checksum) {
        return Reject(ObjectConflict(task.output));
      }
      if task.output != r.output
        || !objects[task.output].state.Reserved?
        || r.codec != descriptor.outputCodec
        || r.location != worker.addr
        || r.size > MAX_OBJECT_BYTES
      {
        return Reject(ObjectConflict(task.output));
      }
      return Apply;
    }

    method Complete(i: WorkerIdentity, r: TaskCompletion) returns (reply: Result<()>, ghost order: seq<TaskId>)
      requires Valid()
      modifies this
      ensures Valid()
      ensures CompleteOrder(old(View()), digest, i, r, order)
      ensures Outcome(View(), reply) == Model.Complete(old(View()), digest, i, r, order)
    {
      hide Inv;
      ghost var s := View();
      order := [];
      var v := CheckCompletion(i, r);
      if v.Reject? {
        return Err(v.error), [];
      } else if v.Duplicate? {
        return Ok(()), [];
      }
      var task := tasks[r.fence.task];
      var ok := Release(i.node, task.resources);
      if !ok {
        return Err(InvalidResource(RELEASE_EXCEEDS)), [];
      }
      var done := task.(state := Succeeded, holder := None);
      var record := ObjectRecord(Available, Some(r.codec), r.bytes, Some(r.size), Some(r.checksum),
                                 Some(r.location), Some(i.node));
      CompleteMidTables(s, digest, i, r, Concluded(View(), r.fence.task, done, record));
      order := Conclude(r.fence.task, done, record);
      reply := Ok(());
      CompleteKeeps(s, digest, i, r, order, View());
    }

    /** Puts a task whose attempt ended back in the queue, not to be handed out before its backoff is over. */
    method MarkRunnable(id: TaskId, now: int)
      requires id in tasks
      modifies this`tasks, this`waiting, this`runnable
      ensures View() == old(View()).(tasks := old(tasks)[id := RetriedTask(old(tasks)[id], now)],
                                     waiting := old(waiting) - {id}, runnable := old(runnable) + [id])
    {
      var task := tasks[id];
      tasks := tasks[id := task.(state := Runnable, holder := None)];
      waiting := waiting - {id};
      runnable := runnable + [id];
      tasks := tasks[id := tasks[id].(notBefore := SatAdd(now, RetryBackoff(task.attempt)))];
    }

    method Fail(i: WorkerIdentity, f: TaskFence, message: string, kind: FailureClass, now: int)
      returns (reply: Result<bool>, ghost order: seq<TaskId>)
      requires Valid()
      modifies this
      ensures Valid()
      ensures FailOrder(old(View()), i, f, message, kind, now, order)
      ensures Outcome(View(), reply) == Model.Fail(old(View()), i, f, message, kind, now, order)
    {
      hide Inv, Settle, RetryBackoff, CanGiveBack;
      ghost var s := View();
      order := [];
      if f.task !in tasks {
        return Err(TaskNotFound(f.task)), [];
      }
      var task := tasks[f.task];
      OutputPresent(s, f.task);
      if task.state.Terminal() {
        return Ok(false), [];
      }
      var fenced := CheckFence(i, f);
      if !fenced {
        return Err(StaleFence), [];
      }
      if !(task.state.Assigned? || task.state.Running?) {
        return Err(IllegalTransition("task cannot fail in current state")), [];
      }
      var ok := Release(i.node, task.resources);
      if !ok {
        return Err(InvalidResource(RELEASE_EXCEEDS)), [];
      }
      if kind.Transient? && task.attempt < task.maxAttempts {
        MarkRunnable(f.task, now);
        revision := revision + 1;
        reply := Ok(false);
      } else {
        var failed := task.(state := TaskState.Failed(message), holder := None);
        var record := objects[task.output].(state := ProducerFailed);
        FailMidTables(s, i, f, message, kind, now, Concluded(View(), f.task, failed, record));
        order := Conclude(f.task, failed, record);
        reply := Ok(true);
      }
      FailKeeps(s, i, f, message, kind, now, order, View());
    }

    method AcknowledgeCancel(i: WorkerIdentity, f: TaskFence) returns (reply: Result<()>, ghost order: seq<TaskId>)
      requires Valid()
      modifies this
      ensures Valid()
      ensures AckOrder(old(View()), i, f, order)
      ensures Outcome(View(), reply) == AckCancel(old(View()), i, f, order)
    {
      hide Inv;
      ghost var s := View();
      order := [];
      if f.task !in tasks {
        return Err(TaskNotFound(f.task)), [];
      }
      var task := tasks[f.task];
      if task.state.Cancelled? {
        return Ok(()), [];
      }
      var fenced := CheckFence(i, f);
      if !fenced {
        return Err(StaleFence), [];
      }
      if !task.state.CancelRequested? {
        return Err(IllegalTransition("task is not awaiting cancellation")), [];
      }
      var ok := Release(i.node, task.resources);
      if !ok {
        return Err(InvalidResource(RELEASE_EXCEEDS)), [];
      }
      OutputPresent(s, f.task);
      cancelRequested := cancelRequested - {f.task};
      var cancelled := task.(state := TaskState.Cancelled, holder := None);
      var record := objects[task.output].(state := ProducerCancelled);
      AckMidTables(s, i, f, Concluded(View(), f.task, cancelled, record));
      order := Conclude(f.task, cancelled, record);
      reply := Ok(());
      AckCancelKeeps(s, i, f, order, View());
    }

    method Cancel(id: TaskId) returns (reply: Result<()>, ghost order: seq<TaskId>)
      requires Valid()
      modifies this
      ensures Valid()
      ensures CancelOrder(old(View()), id, order)
      ensures Outcome(View(), reply) == Model.Cancel(old(View()), id, order)
    {
      hide Inv;
      ghost var s := View();
      order := [];
      if id !in tasks {
        return Err(TaskNotFound(id)), [];
      }
      var task := tasks[id];
      OutputPresent(s, id);
      if task.state.Terminal() {
        return Err(IllegalTransition("task is already terminal")), [];
      }
      if task.state.CancelRequested? {
        return Ok(()), [];
      }
      if task.holder.Some? {
        tasks := tasks[id := task.(state := CancelRequested)];
        cancelRequested := cancelRequested + {id};
        revision := revision + 1;
      } else {
        waiting := waiting - {id};
        var cancelled := task.(state := TaskState.Cancelled);
        var record := objects[task.output].(state := ProducerCancelled);
        CancelMidTables(s, id, Concluded(View(), id, cancelled, record));
        order := Conclude(id, cancelled, record);
      }
      reply := Ok(());
      CancelKeeps(s, id, order, View());
    }

    // ------------------------------------------------------------ workers

    method Renew(node: NodeId, now: int, leaseMs: int)
      requires node in workers
      modifies this
      ensures View() == Renewed(old(View()), node, now, leaseMs)
    {
      workers := workers[node := workers[node].(leaseDeadline := SatAdd(now, leaseMs))];
      revision := revision + 1;
    }

    method Join(r: RegisterWorker, ops: map<OperationKey, OperationDescriptor>, session: SessionId, now: int,
                leaseMs: int)
      returns (identity: WorkerIdentity)
      modifies this
      ensures identity == WorkerIdentity(r.node, r.workerEpoch, session, epoch)
      ensures View() == Joined(old(View()), r, ops, session, now, leaseMs)
    {
      identity := WorkerIdentity(r.node, r.workerEpoch, session, epoch);
      operations := operations + ops;
      workers := workers[r.node := Worker(identity, Alive, r.addr, r.resources, r.resources, r.slots, r.slots, ops,
                                          SatAdd(now, leaseMs))];
      revision := revision + 1;
    }

    method Register(r: RegisterWorker, addrOk: bool, session: SessionId, now: int, leaseMs: int)
      returns (reply: Result<WorkerIdentity>)
      requires Valid()
      modifies this
      ensures Valid()
      ensures Outcome(View(), reply) == Model.Register(old(View()), r, addrOk, session, now, leaseMs)
    {
      hide Inv, CollectOperations, Renewed, Joined;
      ghost var s := View();
      if !addrOk {
        return Err(InvalidAddress(r.addr.text));
      }
      if r.slots == 0 {
        return Err(InvalidResource("worker slots must be positive"));
      }
      var collected := Collect(r.operations);
      if collected.Err? {
        return Err(collected.error);
      }
      var ops := collected.value;
      if r.node in workers && !workers[r.node].state.Dead? {
        var existing := workers[r.node];
        if !(existing.identity.workerEpoch == r.workerEpoch && existing.addr == r.addr
             && existing.total == r.resources && existing.slots == r.slots && existing.operations == ops) {
          return Err(Protocol("duplicate active node id"));
        }
        Renew(r.node, now, leaseMs);
        reply := Ok(existing.identity);
      } else {
        var identity := Join(r, ops, session, now, leaseMs);
        reply := Ok(identity);
      }
      RegisterKeeps(s, r, addrOk, session, now, leaseMs, View());
    }

    method Collect(ds: seq<OperationDescriptor>) returns (r: Result<map<OperationKey, OperationDescriptor>>)
      ensures r == CollectOperations(operations, ds)
    {
      var found: map<OperationKey, OperationDescriptor> := map[];
      for k := 0 to |ds|
        invariant CollectOperations(operations, ds[..k]) == Ok(found)
      {
        var d := ds[k];
        assert ds[..k + 1][..k] == ds[..k];
        if DescriptorError(d).Some? {
          CollectStops(operations, ds, k + 1);
          return Err(DescriptorError(d).value);
        }
        if (d.key in found && found[d.key] != d) || (d.key in operations && operations[d.key] != d) {
          CollectStops(operations, ds, k + 1);
          return Err(OperationConflict(d.key));
        }
        found := found[d.key := d];
      }
      assert ds[..|ds|] == ds;
      r := Ok(found);
    }

    method CheckIdentity(i: WorkerIdentity) returns (ok: bool)
      ensures ok <==> IdentityOk(View(), i)
    {
      return i.coordinatorEpoch == epoch && i.node in workers && !workers[i.node].state.Dead?
             && workers[i.node].identity.workerEpoch == i.workerEpoch && workers[i.node].identity.session == i.session;
    }

    method Heartbeat(i: WorkerIdentity, now: int, leaseMs: int) returns (reply: Result<()>)
      requires Valid()
      modifies this
      ensures Valid()
      ensures Outcome(View(), reply) == Model.Heartbeat(old(View()), i, now, leaseMs)
    {
      hide Inv;
      ghost var s := View();
      var ok := CheckIdentity(i);
      if !ok {
        return Err(StaleFence);
      }
      workers := workers[i.node := workers[i.node].(leaseDeadline := SatAdd(now, leaseMs))];
      reply := Ok(());
      HeartbeatKeeps(s, i, now, leaseMs, View());
    }

    method Drain(i: WorkerIdentity) returns (reply: Result<()>)
      requires Valid()
      modifies this
      ensures Valid()
      ensures Outcome(View(), reply) == Model.Drain(old(View()), i)
    {
      hide Inv;
      ghost var s := View();
      var ok := CheckIdentity(i);
      if !ok {
        return Err(StaleFence);
      }
      workers := workers[i.node := workers[i.node].(state := Draining)];
      revision := revision + 1;
      reply := Ok(());
      DrainKeeps(s, i, View());
    }

    // ------------------------------------------------------------ objects and submission

    method AdmitObject(id: ObjectId, codec: Codec, size: int, checksum: Digest, bytes: Option<Bytes>)
      returns (reply: Result<ObjectId>)
      requires Valid()
      modifies this
      ensures Valid()
      ensures Outcome(View(), reply) == Admit(old(View()), id, codec, size, checksum, bytes)
    {
      hide Inv;
      ghost var s := View();
      if id in objects {
        var o := objects[id];
        if !o.state.Available? || o.codec != Some(codec) || o.size != Some(size) || o.checksum != Some(checksum) {
          return Err(ObjectConflict(id));
        }
        return Ok(id);
      }
      if |objects| >= MAX_OBJECTS {
        return Err(CapacityExceeded("object store limit reached"));
      }
      objects := objects[id := ObjectRecord(Available, Some(codec), bytes, Some(size), Some(checksum),
                                            Some(COORDINATOR), None)];
      revision := revision + 1;
      reply := Ok(id);
      AdmitKeeps(s, id, codec, size, checksum, bytes, View());
    }

    /** An inline object is filed under the digest of its bytes. */
    method Put(codec: Codec, bytes: Bytes) returns (reply: Result<ObjectId>)
      requires Valid()
      modifies this
      ensures Valid()
      ensures Outcome(View(), reply) == PutInline(old(View()), digest, codec, bytes)
    {
      hide Inv;
      var checksum := digest(bytes);
      reply := AdmitObject(checksum, codec, |bytes|, checksum, Some(bytes));
    }

    /** What a reader is told about an object; an available record is never missing a part. */
    method ResolveObject(id: ObjectId) returns (r: Result<ObjectPayload>)
      requires Valid()
      ensures r == Resolve(View(), id)
    {
      if id in objects {
        var o := objects[id];
        if o.state.Available? {
          return Ok(ObjectPayload(id, o.codec.value, o.size.value, o.checksum.value, o.location.value, o.bytes));
        }
        if o.state.Lost? {
          return Err(ObjectLost(id));
        }
        if o.state.Reserved? {
          return Err(ObjectPending(id));
        }
      }
      return Err(Protocol("object unavailable"));
    }

    method ValidateArgs(d: OperationDescriptor, args: seq<TaskArg>) returns (bad: Option<Error>)
      ensures bad == InlineError(d, args)
    {
      for k := 0 to |args|
        invariant InlineError(d, args[..k]) == None
      {
        assert args[..k + 1][..k] == args[..k];
        if args[k].Inline? && args[k].codec != d.inputCodec {
          InlineStops(d, args, k + 1);
          return Some(Protocol("inline argument codec mismatch"));
        }
        if args[k].Inline? && |args[k].bytes| > d.maxInlineArgBytes {
          InlineStops(d, args, k + 1);
          return Some(Protocol("inline argument exceeds operation limit"));
        }
      }
      assert args[..|args|] == args;
      return None;
    }

    method ScanDependencies(d: OperationDescriptor, args: seq<TaskArg>) returns (r: Result<bool>)
      ensures r == ScanArgs(View(), d, args)
    {
      var blocked := false;
      for k := 0 to |args|
        invariant ScanArgs(View(), d, args[..k]) == Ok(blocked)
      {
        var arg := args[k];
        assert args[..k + 1][..k] == args[..k];
        if arg.ObjectArg? {
          var failure: Option<Error> := None;
          if arg.id !in objects {
            failure := Some(ObjectNotFound(arg.id));
          } else if objects[arg.id].codec.Some? && objects[arg.id].codec.value != d.inputCodec {
            failure := Some(Protocol("object argument codec mismatch"));
          } else {
            match objects[arg.id].state
            case Available =>
            case Reserved => blocked := true;
            case _ => failure := Some(DependencyFailed(arg.id));
          }
          if failure.Some? {
            ScanStops(View(), d, args, k + 1);
            return Err(failure.value);
          }
        }
      }
      assert args[..|args|] == args;
      r := Ok(blocked);
    }

    method CheckSubmission(op: OperationKey, args: seq<TaskArg>, resources: ResourceSet, maxAttempts: int)
      returns (r: Result<bool>)
      ensures r == SubmitCheck(View(), op, args, resources, maxAttempts)
    {
      if maxAttempts == 0 {
        return Err(IllegalTransition("max_attempts must be positive"));
      }
      if |tasks| >= MAX_TASKS {
        return Err(CapacityExceeded("task limit reached"));
      }
      if |objects| >= MAX_OBJECTS {
        return Err(CapacityExceeded("object store limit reached"));
      }
      if op !in operations {
        return Err(OperationUnavailable(op));
      }
      var descriptor := operations[op];
      var bad := ValidateArgs(descriptor, args);
      if bad.Some? {
        return Err(bad.value);
      }
      if !exists n :: n in workers && workers[n].state.Alive? && op in workers[n].operations
                      && CanFit(workers[n].total, resources) {
        return Err(InvalidResource("no registered worker can satisfy task resources"));
      }
      r := ScanDependencies(descriptor, args);
    }

    /** Files a new task, its reserved output and its place in the queue or among the blocked tasks. */
    method Enter(id: TaskId, task: Task, codec: Codec)
      requires task.state.Waiting? || task.state.Runnable?
      modifies this
      ensures View() == AddTask(old(View()), id, task, codec)
    {
      objects := objects[task.output := ObjectRecord(Reserved, Some(codec), None, None, None, None, None)];
      tasks := tasks[id := task];
      if task.state.Waiting? {
        waiting := waiting + {id};
      } else {
        runnable := runnable + [id];
      }
      born := born[id := |born|];
      revision := revision + 1;
    }

    method Submit(op: OperationKey, args: seq<TaskArg>, resources: ResourceSet, maxAttempts: int,
                  id: TaskId, output: ObjectId) returns (reply: Result<(TaskId, ObjectId)>)
      requires Valid() && id !in born && output !in objects && 0 <= maxAttempts <= U32_MAX
      modifies this
      ensures Valid()
      ensures Outcome(View(), reply) == Model.Submit(old(View()), op, args, resources, maxAttempts, id, output)
    {
      hide Inv;
      ghost var s := View();
      var check := CheckSubmission(op, args, resources, maxAttempts);
      if check.Err? {
        return Err(check.error);
      }
      var blocked := check.value;
      Enter(id, Task(op, args, output, resources, maxAttempts, 0, if blocked then Waiting else Runnable, None, 0, 0),
            operations[op].outputCodec);
      reply := Ok((id, output));
      SubmitKeeps(s, op, args, resources, maxAttempts, id, output, View());
    }

    // ------------------------------------------------------------ scheduling

    /** Takes entries off the queue until a local match, the look-ahead bound or the end. */
    method ScanRunnable(node: NodeId, w: Worker, now: int)
      returns (passed: seq<TaskId>, requeue: seq<TaskId>, picked: Option<TaskId>)
      modifies this`runnable
      ensures var scan := FullScan(old(View()), node, w, now);
        && scan.seen <= |old(runnable)| && runnable == old(runnable)[scan.seen..]
        && passed == scan.passed && requeue == scan.requeue && picked == scan.picked
    {
      ghost var s := View();
      ghost var seen: nat := 0;
      passed, requeue, picked := [], [], None;
      while runnable != [] && picked.None? && |passed| < LOCALITY_LOOKAHEAD
        invariant seen <= |s.runnable| && runnable == s.runnable[seen..]
        invariant ScanQueue(s, node, w, now, Scan(seen, passed, requeue, picked)) == FullScan(s, node, w, now)
        decreases |runnable|
      {
        var id := runnable[0];
        ghost var scan := Scan(seen, passed, requeue, picked);
        runnable := runnable[1..];
        seen := seen + 1;
        if id in tasks && tasks[id].state.Runnable? {
          if tasks[id].notBefore > now {
            requeue := requeue + [id];
          } else if !(tasks[id].operation in w.operations && CanFit(w.available, tasks[id].resources)) {
            requeue := requeue + [id];
          } else if exists o :: o in Deps(tasks[id]) && o in objects && objects[o].owner == Some(node) {
            picked := Some(id);
          } else {
            passed := passed + [id];
          }
        }
        assert Local(s, node, id) <==>
          (id in tasks && exists o :: o in Deps(tasks[id]) && o in objects && objects[o].owner == Some(node));
        assert Scan(seen, passed, requeue, picked) == ScanEntry(s, node, w, now, scan);
      }
    }

    /** Passed-over tasks return to the front in their order, tasks this worker cannot serve go to the back. */
    method Requeue(passed: seq<TaskId>, requeue: seq<TaskId>, chosen: Option<TaskId>)
      modifies this`runnable
      ensures runnable == Without(passed, chosen) + old(runnable) + requeue
    {
      var k := |passed|;
      while k > 0
        invariant 0 <= k <= |passed|
        invariant runnable == Without(passed[k..], chosen) + old(runnable)
      {
        k := k - 1;
        assert passed[k..][1..] == passed[k + 1..];
        if chosen != Some(passed[k]) {
          runnable := [passed[k]] + runnable;
        }
      }
      assert passed[0..] == passed;
      runnable := runnable + requeue;
    }

    method BookTask(node: NodeId, id: TaskId, lease: LeaseId) returns (reply: Result<Option<TaskAssignment>>)
      requires node in workers && id in tasks && CanFit(workers[node].available, tasks[id].resources)
      modifies this
      ensures View() == Book(old(View()), node, id, lease)
      ensures reply == Ok(Some(AssignmentOf(id, tasks[id], lease)))
    {
      var w := workers[node];
      var task := tasks[id];
      var left := Subtract(w.available, task.resources);
      workers := workers[node := w.(available := left.value, freeSlots := w.freeSlots - 1)];
      var held := task.(attempt := task.attempt + 1, state := Assigned,
                        holder := Some(Assignment(node, w.identity.workerEpoch, w.identity.session, lease)));
      tasks := tasks[id := held];
      revision := revision + 1;
      reply := Ok(Some(TaskAssignment(TaskFence(id, held.attempt, lease), held.operation, held.args, held.output,
                                      held.resources)));
    }

    method AssignNext(node: NodeId, now: int, lease: LeaseId) returns (reply: Result<Option<TaskAssignment>>)
      requires Valid()
      modifies this
      ensures Valid()
      ensures Outcome(View(), reply) == Model.AssignNext(old(View()), node, now, lease)
    {
      hide Inv;
      ghost var s := View();
      if node !in workers {
        return Err(StaleFence);
      }
      var w := workers[node];
      if !w.state.Alive? || w.freeSlots == 0 {
        return Ok(None);
      }
      AssignNextState(s, node, now, lease);
      RequeuedIs(s, node, w, now);
      var passed, requeue, picked := ScanRunnable(node, w, now);
      var chosen := if picked.Some? then picked else if passed != [] then Some(passed[0]) else None;
      Requeue(passed, requeue, chosen);
      if chosen.Some? {
        reply := BookTask(node, chosen.value, lease);
      } else {
        reply := Ok(None);
      }
      AssignNextKeeps(s, node, now, lease, View());
    }

    // ------------------------------------------------------------ polling

    method TakePendingDeletes(node: NodeId) returns (deletes: seq<ObjectId>)
      requires Valid()
      modifies this
      ensures Valid()
      ensures (View(), deletes) == TakeDeletes(old(View()), node)
    {
      hide Inv;
      ghost var s := View();
      deletes := if node in pendingDeletes then pendingDeletes[node] else [];
      pendingDeletes := pendingDeletes - {node};
      DeletesKeep(s, View());
    }

    method CancellationFor(i: WorkerIdentity) returns (r: Result<Option<TaskFence>>)
      requires Valid()
      ensures r.Err? <==> !IdentityOk(View(), i)
      ensures r.Err? ==> r.error == StaleFence
      ensures r == Ok(None) <==> IdentityOk(View(), i) && CancellationsFor(View(), i) == {}
      ensures r.Ok? && r.value.Some? ==>
        exists c :: c in CancellationsFor(View(), i) && r.value.value == FenceOf(View(), c)
    {
      var ok := CheckIdentity(i);
      if !ok {
        return Err(StaleFence);
      }
      var asked := set t | t in cancelRequested && t in tasks && HeldByIdentity(tasks[t], i);
      assert asked == CancellationsFor(View(), i);
      if asked == {} {
        return Ok(None);
      }
      ghost var some := Member(asked);
      var t :| t in asked;
      return Ok(Some(TaskFence(t, tasks[t].attempt, tasks[t].holder.value.lease)));
    }

    method AssignedUnstarted(i: WorkerIdentity) returns (r: Result<Option<TaskAssignment>>)
      requires Valid()
      ensures r.Err? <==> !IdentityOk(View(), i)
      ensures r.Err? ==> r.error == StaleFence
      ensures r == Ok(None) <==> IdentityOk(View(), i) && UnstartedFor(View(), i) == {}
      ensures r.Ok? && r.value.Some? ==>
        exists c :: c in UnstartedFor(View(), i)
          && r.value.value == AssignmentOf(c, tasks[c], tasks[c].holder.value.lease)
    {
      var ok := CheckIdentity(i);
      if !ok {
        return Err(StaleFence);
      }
      var unstarted := set t | t in tasks && tasks[t].state.Assigned? && HeldByIdentity(tasks[t], i);
      assert unstarted == UnstartedFor(View(), i);
      if unstarted == {} {
        return Ok(None);
      }
      ghost var some := Member(unstarted);
      var t :| t in unstarted;
      return Ok(Some(AssignmentOf(t, tasks[t], tasks[t].holder.value.lease)));
    }

    method PollWork(i: WorkerIdentity, now: int, lease: LeaseId) returns (reply: PollReply)
      requires Valid()
      modifies this
      ensures Valid()
      ensures View() == WorkState(old(View()), i, now, lease)
      ensures WorkAnswers(old(View()), i, now, lease, reply)
    {
      hide Inv;
      var cancel := CancellationFor(i);
      if cancel.Err? {
        return PollError(cancel.error);
      }
      if cancel.value.Some? {
        return CancelTask(cancel.value.value);
      }
      // The identity has just been checked, so this second check cannot fail.
      var unstarted := AssignedUnstarted(i);
      if unstarted.value.Some? {
        return Assign(unstarted.value);
      }
      var assignment := AssignNext(i.node, now, lease);
      reply := if assignment.Ok? then Assign(assignment.value) else PollError(assignment.error);
    }

    /** What one poll does while the coordinator is locked. */
    method Poll(i: WorkerIdentity, now: int, lease: LeaseId) returns (reply: PollReply)
      requires Valid()
      modifies this
      ensures Valid()
      ensures View() == PollState(old(View()), i, now, lease)
      ensures PollAnswers(old(View()), i, now, lease, reply)
    {
      hide Inv;
      ghost var s := View();
      var deletes := TakePendingDeletes(i.node);
      if deletes == [] {
        reply := PollWork(i, now, lease);
      } else {
        if |deletes| > 1 {
          pendingDeletes := pendingDeletes[i.node := deletes[1..]];
        }
        reply := DeleteObject(deletes[0]);
        DeletesKeep(s, View());
      }
    }

    // ------------------------------------------------------------ release and reclaim

    method Remove(id: ObjectId) returns (reply: Result<()>)
      modifies this
      ensures Outcome(View(), reply) == Model.ReleaseObject(old(View()), id)
    {
      if id !in objects {
        return Ok(());
      }
      var record := objects[id];
      assert InUse(View(), id) <==> (exists t :: t in tasks && !tasks[t].state.Terminal() && id in Deps(tasks[t]));
      if record.state.Reserved? || exists t :: t in tasks && !tasks[t].state.Terminal() && id in Deps(tasks[t]) {
        return Err(ObjectInUse(id));
      }
      if record.owner.Some? && record.owner.value in workers {
        var node := record.owner.value;
        pendingDeletes := pendingDeletes[node := (if node in pendingDeletes then pendingDeletes[node] else []) + [id]];
      }
      objects := objects - {id};
      tasks := map t | t in tasks && tasks[t].output != id :: tasks[t];
      revision := revision + 1;
      reply := Ok(());
      assert tasks == TasksWithout(old(tasks), id);
    }

    method ReleaseObject(id: ObjectId) returns (reply: Result<()>)
      requires Valid()
      modifies this
      ensures Valid()
      ensures Outcome(View(), reply) == Model.ReleaseObject(old(View()), id)
    {
      hide Inv;
      ghost var s := View();
      reply := Remove(id);
      ReleaseObjectKeeps(s, id, View());
    }

    /** Stamps the tasks that have newly finished and gathers what unfinished ones depend on. */
    method StampTerminal(now: int) returns (referenced: set<ObjectId>)
      modifies this`tasks
      ensures View() == Stamp(old(View()), now)
      ensures forall o :: o in referenced <==> UsedBy(old(tasks), old(tasks).Keys, o)
    {
      referenced := {};
      ghost var done: set<TaskId> := {};
      var todo := tasks.Keys;
      while todo != {}
        invariant tasks.Keys == old(tasks).Keys == todo + done && todo !! done
        invariant forall t :: t in todo ==> tasks[t] == old(tasks)[t]
        invariant forall t :: t in done ==> tasks[t] == StampedTask(old(tasks)[t], now)
        invariant forall o :: o in referenced <==> UsedBy(old(tasks), done, o)
      {
        ghost var some := Member(todo);
        var t :| t in todo;
        UsedByOneMore(old(tasks), done, t);
        if tasks[t].state.Terminal() {
          if tasks[t].terminalSince == 0 {
            tasks := tasks[t := tasks[t].(terminalSince := now)];
          }
        } else {
          referenced := referenced + Deps(tasks[t]);
        }
        todo, done := todo - {t}, done + {t};
      }
      StampIs(old(View()), now, tasks);
    }

    /** Releases the objects in `due` one after the other. */
    method ReleaseDue(due: set<ObjectId>) returns (reclaimed: nat, ghost order: seq<ObjectId>)
      modifies this
      ensures IsOrder(order, due) && (View(), reclaimed) == ReleaseAll(old(View()), order)
    {
      reclaimed := 0;
      order := [];
      var todo := due;
      while todo != {}
        invariant ReleaseAll(old(View()), order) == (View(), reclaimed)
        invariant todo <= due && IsOrder(order, due - todo)
      {
        ghost var some := Member(todo);
        var o :| o in todo;
        var reply := Remove(o);
        if reply.Ok? {
          reclaimed := reclaimed + 1;
        }
        ReleaseOneMore(old(View()), order, o);
        OrderOneMore(order, due, todo, o);
        todo, order := todo - {o}, order + [o];
      }
    }

    method ReapTerminalTasks(now: int) returns (reclaimed: nat, ghost order: seq<ObjectId>)
      requires Valid()
      modifies this
      ensures Valid()
      ensures ReapOrder(old(View()), now, order)
      ensures (View(), reclaimed) == Reap(old(View()), now, order)
    {
      hide Inv;
      ghost var s := View();
      var referenced := StampTerminal(now);
      ghost var stamped := View();
      var due := set t | t in tasks && tasks[t].state.Terminal()
        && SatSub(now, tasks[t].terminalSince) >= TERMINAL_TASK_TTL_MS
        && tasks[t].output !in referenced :: tasks[t].output;
      DueAre(s, stamped, now, referenced, due);
      reclaimed, order := ReleaseDue(due);
      ReapKeeps(s, now, order, View());
    }

    // ------------------------------------------------------------ lease expiry

    method EvictTask(id: TaskId, now: int)
      requires id in tasks && tasks[id].output in objects
      modifies this`tasks, this`objects, this`waiting, this`runnable, this`cancelRequested
      ensures View() == EvictedOne(old(View()), id, now)
    {
      var task := tasks[id];
      if task.state.CancelRequested? {
        tasks := tasks[id := task.(state := TaskState.Cancelled, holder := None)];
        cancelRequested := cancelRequested - {id};
        objects := objects[task.output := objects[task.output].(state := ProducerCancelled)];
      } else if task.attempt < task.maxAttempts {
        MarkRunnable(id, now);
      } else {
        tasks := tasks[id := task.(state := TaskState.Failed(LEASE_EXPIRED), holder := None)];
        objects := objects[task.output := objects[task.output].(state := ProducerFailed)];
      }
    }

    method OrphanObjects(node: NodeId)
      modifies this`objects
      ensures objects == OrphanedObjects(old(objects), node)
    {
      var todo := objects.Keys;
      while todo != {}
        invariant todo <= objects.Keys == old(objects).Keys
        invariant forall o :: o in objects ==>
          objects[o] == if o in todo then old(objects)[o] else OrphanedObject(old(objects)[o], {node})
      {
        ghost var some := Member(todo);
        var o :| o in todo;
        var record := objects[o];
        if record.owner == Some(node) && record.state.Available? {
          objects := objects[o := if record.bytes.Some? then record.(owner := None, location := Some(COORDINATOR))
                                  else record.(owner := None, location := None, state := Lost)];
        }
        todo := todo - {o};
      }
      OrphansAre(old(objects), node, objects);
    }

    /** Evicts what `node` holds, task by task. */
    method EvictTasks(node: NodeId, now: int, ghost s: State, ghost nodes: set<NodeId>, ghost retried: seq<TaskId>)
      returns (ghost retried': seq<TaskId>)
      requires OutputsMatch(s) && HoldersMatch(s) && SetsMatch(s) && node !in nodes
      requires Evicting(s, nodes, HeldBy(s, nodes), now, retried, View())
      modifies this`tasks, this`objects, this`waiting, this`runnable, this`cancelRequested
      ensures Evicting(s, nodes, HeldBy(s, nodes + {node}), now, retried', View())
    {
      HeldByNode(s, nodes, now, retried, View(), node);
      var todo := set t | t in tasks && tasks[t].holder.Some? && tasks[t].holder.value.node == node;
      assert todo == HeldBy(View(), {node});
      ghost var goal := HeldBy(s, nodes + {node});
      ghost var held := HeldBy(s, nodes);
      retried' := retried;
      assert held == goal - todo;
      while todo != {}
        invariant todo <= goal && held == goal - todo
        invariant todo <= HeldBy(s, s.workers.Keys)
        invariant Evicting(s, nodes, held, now, retried', View())
      {
        ghost var some := Member(todo);
        var t :| t in todo;
        EvictOne(s, nodes, held, now, retried', View(), t);
        EvictTask(t, now);
        retried' := OrderAfter(s, retried', t);
        MoveOne(goal, todo, t);
        held, todo := held + {t}, todo - {t};
      }
      assert held == goal;
    }

    /** Evicts one worker: its tasks, its objects, then its record. */
    method EvictWorker(node: NodeId, now: int, ghost s: State, ghost nodes: set<NodeId>, ghost retried: seq<TaskId>)
      returns (ghost retried': seq<TaskId>)
      requires OutputsMatch(s) && HoldersMatch(s) && SetsMatch(s) && node !in nodes
      requires Evicting(s, nodes, HeldBy(s, nodes), now, retried, View())
      modifies this
      ensures Evicting(s, nodes + {node}, HeldBy(s, nodes + {node}), now, retried', View())
    {
      retried' := EvictTasks(node, now, s, nodes, retried);
      EvictNode(s, nodes, HeldBy(s, nodes + {node}), now, retried', View(), node);
      OrphanObjects(node);
      workers := workers - {node};
      pendingDeletes := pendingDeletes - {node};
    }

    method EvictWorkers(expired: set<NodeId>, now: int) returns (ghost retried: seq<TaskId>)
      requires OutputsMatch(View()) && HoldersMatch(View()) && SetsMatch(View())
      modifies this
      ensures Evicting(old(View()), expired, HeldBy(old(View()), expired), now, retried, View())
    {
      ghost var s := View();
      retried := [];
      StartEvicting(s, now);
      ghost var nodes: set<NodeId> := {};
      assert HeldBy(s, {}) == {};
      var todo := expired;
      while todo != {}
        invariant nodes !! todo && nodes + todo == expired
        invariant Evicting(s, nodes, HeldBy(s, nodes), now, retried, View())
      {
        ghost var some := Member(todo);
        var node :| node in todo;
        retried := EvictWorker(node, now, s, nodes, retried);
        nodes, todo := nodes + {node}, todo - {node};
      }
    }

    method ExpireWorkers(now: int) returns (ghost retried: seq<TaskId>, ghost order: seq<TaskId>)
      requires Valid()
      modifies this
      ensures Valid()
      ensures ExpireOrder(old(View()), now, retried, order)
      ensures View() == Model.ExpireWorkers(old(View()), now, retried, order)
    {
      hide Inv;
      ghost var s := View();
      var expired := set n | n in workers && !workers[n].state.Dead? && workers[n].leaseDeadline <= now;
      assert expired == Expired(s, now);
      retried, order := [], [];
      if expired == {} {
        NothingExpired(s, now);
        return;
      }
      HeldTables(s);
      retried := EvictWorkers(expired, now);
      EvictedTables(s, now, retried, View());
      order := ReconcileDependencies();
      revision := revision + 1;
      ExpireKeeps(s, now, retried, order, View());
    }
  }
}
