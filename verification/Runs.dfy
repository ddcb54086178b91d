/** Runs of the coordinator: any sequence of its transitions, and the invariant of every reachable state. */
module Runs {
  import opened Types
  import opened Resources
  import opened Model
  import opened Invariants
  import opened Dependencies
  import opened Steps
  import opened Admission
  import opened Scheduling
  import opened Expiry
  import opened Reclaim

  /** One call on the coordinator, with the ids it draws, the clock it reads and the hash orders it meets. */
  datatype Action =
    | DoRegister(r: RegisterWorker, addrOk: bool, session: SessionId, now: int, leaseMs: int)
    | DoHeartbeat(i: WorkerIdentity, now: int, leaseMs: int)
    | DoDrain(i: WorkerIdentity)
    | DoPut(codec: Codec, bytes: Bytes)
    | DoPutMeta(id: ObjectId, codec: Codec, size: int, checksum: Digest)
    | DoSubmit(op: OperationKey, args: seq<TaskArg>, resources: ResourceSet, maxAttempts: int,
               task: TaskId, output: ObjectId)
    | DoAssign(node: NodeId, now: int, lease: LeaseId)
    | DoPoll(i: WorkerIdentity, now: int, lease: LeaseId)
    | DoStarted(i: WorkerIdentity, f: TaskFence)
    | DoComplete(i: WorkerIdentity, report: TaskCompletion, order: seq<TaskId>)
    | DoFail(i: WorkerIdentity, f: TaskFence, message: string, kind: FailureClass, now: int, order: seq<TaskId>)
    | DoAckCancel(i: WorkerIdentity, f: TaskFence, order: seq<TaskId>)
    | DoCancel(task: TaskId, order: seq<TaskId>)
    | DoRelease(id: ObjectId)
    | DoTakeDeletes(node: NodeId)
    | DoExpire(now: int, retried: seq<TaskId>, order: seq<TaskId>)
    | DoReap(now: int, due: seq<ObjectId>)

  /** `order` is one way to queue the tasks that completing this one frees. */
  ghost predicate CompleteOrder(s: State, h: Bytes -> Digest, i: WorkerIdentity, r: TaskCompletion, order: seq<TaskId>)
  {
    CompleteVerdict(s, h, i, r).Apply? ==> IsOrder(order, Ready(CompleteMid(s, i, r)))
  }

  ghost predicate FailOrder(s: State, i: WorkerIdentity, f: TaskFence, message: string, kind: FailureClass, now: int,
                            order: seq<TaskId>)
  {
    FailVerdict(s, i, f).Apply? && !Retries(s.tasks[f.task], kind) ==>
      IsOrder(order, Ready(FailMid(s, i, f, message, kind, now)))
  }

  ghost predicate AckOrder(s: State, i: WorkerIdentity, f: TaskFence, order: seq<TaskId>)
  {
    AckVerdict(s, i, f).Apply? ==> IsOrder(order, Ready(AckMid(s, i, f)))
  }

  ghost predicate CancelOrder(s: State, t: TaskId, order: seq<TaskId>)
  {
    CancelVerdict(s, t).Apply? && s.tasks[t].holder.None? ==> IsOrder(order, Ready(CancelMid(s, t)))
  }

  ghost predicate ExpireOrder(s: State, now: int, retried: seq<TaskId>, order: seq<TaskId>)
  {
    && IsOrder(retried, Retried(s, HeldBy(s, Expired(s, now))))
    && IsOrder(order, Ready(EvictAll(s, now, retried)))
  }

  ghost predicate ReapOrder(s: State, now: int, due: seq<ObjectId>)
  {
    IsOrder(due, DueOutputs(Stamp(s, now), now))
  }

  /** The outside world keeps its promises: drawn ids are fresh, unsigned numbers are not negative,
      and hash orders list what the table holds. */
  ghost predicate Legal(s: State, h: Bytes -> Digest, a: Action)
  {
    match a
    case DoSubmit(_, _, _, maxAttempts, task, output) =>
      task !in s.born && output !in s.objects && 0 <= maxAttempts <= U32_MAX
    case DoComplete(i, report, order) => CompleteOrder(s, h, i, report, order)
    case DoFail(i, f, message, kind, now, order) => FailOrder(s, i, f, message, kind, now, order)
    case DoAckCancel(i, f, order) => AckOrder(s, i, f, order)
    case DoCancel(task, order) => CancelOrder(s, task, order)
    case DoExpire(now, retried, order) => ExpireOrder(s, now, retried, order)
    case DoReap(now, due) => ReapOrder(s, now, due)
    case _ => true
  }

  ghost function Next(s: State, h: Bytes -> Digest, a: Action): State
  {
    match a
    case DoRegister(r, addrOk, session, now, leaseMs) => Register(s, r, addrOk, session, now, leaseMs).state
    case DoHeartbeat(i, now, leaseMs) => Heartbeat(s, i, now, leaseMs).state
    case DoDrain(i) => Drain(s, i).state
    case DoPut(codec, bytes) => PutInline(s, h, codec, bytes).state
    case DoPutMeta(id, codec, size, checksum) => Admit(s, id, codec, size, checksum, None).state
    case DoSubmit(op, args, resources, maxAttempts, task, output) =>
      Submit(s, op, args, resources, maxAttempts, task, output).state
    case DoAssign(node, now, lease) => AssignNext(s, node, now, lease).state
    case DoPoll(i, now, lease) => PollState(s, i, now, lease)
    case DoStarted(i, f) => Started(s, i, f).state
    case DoComplete(i, report, order) => Complete(s, h, i, report, order).state
    case DoFail(i, f, message, kind, now, order) => Fail(s, i, f, message, kind, now, order).state
    case DoAckCancel(i, f, order) => AckCancel(s, i, f, order).state
    case DoCancel(task, order) => Cancel(s, task, order).state
    case DoRelease(id) => ReleaseObject(s, id).state
    case DoTakeDeletes(node) => TakeDeletes(s, node).0
    case DoExpire(now, retried, order) => ExpireWorkers(s, now, retried, order)
    case DoReap(now, due) => Reap(s, now, due).0
  }

  // ---------------------------------------------------------------- every transition keeps the invariant

  lemma DeletesKeep(s: State, s': State)
    requires s' == s.(pendingDeletes := s'.pendingDeletes)
    ensures Inv(s) ==> Inv(s')
  {
    if Inv(s) {
      OnlyWorkersKeeps(s, s') by {
        forall n | n in s'.workers ensures Balanced(s'.tasks, s'.workers[n], n) {
          assert Balanced(s.tasks, s.workers[n], n);
        }
      }
    }
  }

  lemma WorkKeeps(s: State, i: WorkerIdentity, now: int, lease: LeaseId, s': State)
    requires s' == WorkState(s, i, now, lease)
    ensures Inv(s) ==> Inv(s')
  {
    hide Inv;
    if s' != s {
      AssignNextKeeps(s, i.node, now, lease, s');
    }
  }

  lemma PollKeeps(s: State, i: WorkerIdentity, now: int, lease: LeaseId, s': State)
    requires s' == PollState(s, i, now, lease)
    ensures Inv(s) ==> Inv(s')
  {
    hide Inv;
    var t := TakeDeletes(s, i.node).0;
    DeletesKeep(s, PopDelete(s, i.node));
    DeletesKeep(s, t);
    if TakeDeletes(s, i.node).1 == [] {
      WorkKeeps(t, i, now, lease, s');
    }
  }

  lemma SettledStepKeeps(mid: State, order: seq<TaskId>)
    requires Consistent(mid) && IsOrder(order, Ready(mid))
    ensures Inv(Bump(Settle(mid, order)))
  {
    SettleKeepsInv(mid, order);
    BumpKeeps(Settle(mid, order));
  }

  lemma CompleteKeeps(s: State, h: Bytes -> Digest, i: WorkerIdentity, r: TaskCompletion, order: seq<TaskId>, s': State)
    requires CompleteOrder(s, h, i, r, order) && s' == Complete(s, h, i, r, order).state
    ensures Inv(s) ==> Inv(s')
  {
    hide Consistent, Settled, Settle;
    if Inv(s) {
      if CompleteVerdict(s, h, i, r).Apply? {
        CompleteMidKeeps(s, h, i, r);
        SettledStepKeeps(CompleteMid(s, i, r), order);
      }
    }
  }

  lemma FailKeeps(s: State, i: WorkerIdentity, f: TaskFence, message: string, kind: FailureClass, now: int,
                  order: seq<TaskId>, s': State)
    requires FailOrder(s, i, f, message, kind, now, order)
    requires s' == Fail(s, i, f, message, kind, now, order).state
    ensures Inv(s) ==> Inv(s')
  {
    hide Consistent, Settled, Settle;
    if Inv(s) {
      if FailVerdict(s, i, f).Apply? {
        var mid := FailMid(s, i, f, message, kind, now);
        FailMidKeeps(s, i, f, message, kind, now);
        if Retries(s.tasks[f.task], kind) {
          RetryKeepsSettled(s, i, f, message, kind, now);
          BumpKeeps(mid);
        } else {
          SettledStepKeeps(mid, order);
        }
      }
    }
  }

  lemma AckCancelKeeps(s: State, i: WorkerIdentity, f: TaskFence, order: seq<TaskId>, s': State)
    requires AckOrder(s, i, f, order) && s' == AckCancel(s, i, f, order).state
    ensures Inv(s) ==> Inv(s')
  {
    hide Consistent, Settled, Settle;
    if Inv(s) {
      if AckVerdict(s, i, f).Apply? {
        AckMidKeeps(s, i, f);
        SettledStepKeeps(AckMid(s, i, f), order);
      }
    }
  }

  lemma CancelKeeps(s: State, t: TaskId, order: seq<TaskId>, s': State)
    requires CancelOrder(s, t, order) && s' == Cancel(s, t, order).state
    ensures Inv(s) ==> Inv(s')
  {
    hide Consistent, Settled, Settle;
    if Inv(s) {
      if CancelVerdict(s, t).Apply? {
        if s.tasks[t].holder.Some? {
          CancelRequestKeeps(s, t, order);
        } else {
          CancelMidKeeps(s, t);
          SettledStepKeeps(CancelMid(s, t), order);
        }
      }
    }
  }

  /** Calls made on behalf of clients. */
  predicate FromClient(a: Action)
  {
    a.DoPut? || a.DoPutMeta? || a.DoSubmit? || a.DoCancel? || a.DoRelease?
  }

  /** Reports a worker makes about a task. */
  predicate FromHolder(a: Action)
  {
    a.DoStarted? || a.DoComplete? || a.DoFail? || a.DoAckCancel?
  }

  lemma ClientKeepsInv(s: State, h: Bytes -> Digest, a: Action, s': State)
    requires Legal(s, h, a) && FromClient(a) && s' == Next(s, h, a)
    ensures Inv(s) ==> Inv(s')
  {
    hide Inv, Admit, Submit, Cancel, ReleaseObject, CancelOrder;
    match a
    case DoPut(codec, bytes) => AdmitKeeps(s, h(bytes), codec, |bytes|, h(bytes), Some(bytes), s');
    case DoPutMeta(id, codec, size, checksum) => AdmitKeeps(s, id, codec, size, checksum, None, s');
    case DoSubmit(op, args, resources, maxAttempts, task, output) =>
      SubmitKeeps(s, op, args, resources, maxAttempts, task, output, s');
    case DoCancel(task, order) => CancelKeeps(s, task, order, s');
    case DoRelease(id) => ReleaseObjectKeeps(s, id, s');
  }

  lemma HolderKeepsInv(s: State, h: Bytes -> Digest, a: Action, s': State)
    requires Legal(s, h, a) && FromHolder(a) && s' == Next(s, h, a)
    ensures Inv(s) ==> Inv(s')
  {
    hide Inv, Started, Complete, Fail, AckCancel, CompleteOrder, FailOrder, AckOrder;
    match a
    case DoStarted(i, f) => StartedKeeps(s, i, f, s');
    case DoComplete(i, report, order) => CompleteKeeps(s, h, i, report, order, s');
    case DoFail(i, f, message, kind, now, order) => FailKeeps(s, i, f, message, kind, now, order, s');
    case DoAckCancel(i, f, order) => AckCancelKeeps(s, i, f, order, s');
  }

  /** Every legal transition keeps the invariant. */
  lemma NextKeepsInv(s: State, h: Bytes -> Digest, a: Action, s': State)
    requires Legal(s, h, a) && s' == Next(s, h, a)
    ensures Inv(s) ==> Inv(s')
  {
    hide Inv;
    if FromClient(a) {
      ClientKeepsInv(s, h, a, s');
    } else if FromHolder(a) {
      HolderKeepsInv(s, h, a, s');
    } else {
      match a
      case DoRegister(r, addrOk, session, now, leaseMs) => RegisterKeeps(s, r, addrOk, session, now, leaseMs, s');
      case DoHeartbeat(i, now, leaseMs) => HeartbeatKeeps(s, i, now, leaseMs, s');
      case DoDrain(i) => DrainKeeps(s, i, s');
      case DoAssign(node, now, lease) => AssignNextKeeps(s, node, now, lease, s');
      case DoPoll(i, now, lease) => PollKeeps(s, i, now, lease, s');
      case DoTakeDeletes(node) => DeletesKeep(s, s');
      case DoExpire(now, retried, order) => ExpireKeeps(s, now, retried, order, s');
      case DoReap(now, due) => ReapKeeps(s, now, due, s');
    }
  }

  lemma InitInv(epoch: Epoch)
    ensures Inv(Init(epoch))
  {
  }

  // ---------------------------------------------------------------- runs

  /** Step `k` of a run: `states[k + 1]` is what `actions[k]` makes of `states[k]`. */
  ghost predicate StepAt(h: Bytes -> Digest, states: seq<State>, actions: seq<Action>, k: nat)
    requires k + 1 < |states| && k < |actions|
  {
    Legal(states[k], h, actions[k]) && states[k + 1] == Next(states[k], h, actions[k])
  }

  /** A run from a fresh coordinator. */
  ghost predicate IsRun(h: Bytes -> Digest, states: seq<State>, actions: seq<Action>)
  {
    && |states| == |actions| + 1
    && states[0] == Init(states[0].epoch)
    && forall k :: 0 <= k < |actions| ==> StepAt(h, states, actions, k)
  }

  /** The invariant holds in every state of every run. */
  lemma {:induction false} RunInv(h: Bytes -> Digest, states: seq<State>, actions: seq<Action>, k: nat)
    requires IsRun(h, states, actions) && k < |states|
    ensures Inv(states[k])
    decreases k
  {
    hide Inv, Legal, Next;
    if k == 0 {
      InitInv(states[0].epoch);
    } else {
      RunInv(h, states, actions, k - 1);
      assert StepAt(h, states, actions, k - 1);
      NextKeepsInv(states[k - 1], h, actions[k - 1], states[k]);
    }
  }
}
