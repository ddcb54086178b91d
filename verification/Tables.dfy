/** Which calls can bring new tasks, remove records or move the queue. */
module Tables {
  import opened Types
  import opened Resources
  import opened Model
  import opened Invariants
  import Scheduling
  import opened Runs
  import E = Evolution

  /** No record is removed and no task id is issued. */
  ghost predicate TablesStay(s: State, s': State)
  {
    s.objects.Keys <= s'.objects.Keys && s'.born == s.born
  }

  lemma SettleStays(mid: State, order: seq<TaskId>)
    ensures TablesStay(mid, Settle(mid, order))
  {
  }

  lemma CompleteStays(s: State, h: Bytes -> Digest, i: WorkerIdentity, r: TaskCompletion, order: seq<TaskId>)
    ensures TablesStay(s, Complete(s, h, i, r, order).state)
  {
    hide Settle;
    if CompleteVerdict(s, h, i, r).Apply? {
      SettleStays(CompleteMid(s, i, r), order);
    }
  }

  lemma FailStays(s: State, i: WorkerIdentity, f: TaskFence, message: string, kind: FailureClass, now: int,
                  order: seq<TaskId>)
    ensures TablesStay(s, Fail(s, i, f, message, kind, now, order).state)
  {
    hide Settle;
    if FailVerdict(s, i, f).Apply? {
      assert TablesStay(s, FailMid(s, i, f, message, kind, now));
      SettleStays(FailMid(s, i, f, message, kind, now), order);
    }
  }

  lemma AckStays(s: State, i: WorkerIdentity, f: TaskFence, order: seq<TaskId>)
    ensures TablesStay(s, AckCancel(s, i, f, order).state)
  {
    hide Settle;
    if AckVerdict(s, i, f).Apply? {
      SettleStays(AckMid(s, i, f), order);
    }
  }

  lemma CancelStays(s: State, t: TaskId, order: seq<TaskId>)
    ensures TablesStay(s, Cancel(s, t, order).state)
  {
    hide Settle;
    if CancelVerdict(s, t).Apply? {
      SettleStays(CancelMid(s, t), order);
    }
  }

  lemma ExpireStays(s: State, now: int, retried: seq<TaskId>, order: seq<TaskId>)
    ensures TablesStay(s, ExpireWorkers(s, now, retried, order))
  {
    hide Settle;
    SettleStays(EvictAll(s, now, retried), order);
  }

  lemma AssignStays(s: State, node: NodeId, now: int, lease: LeaseId)
    ensures TablesStay(s, AssignNext(s, node, now, lease).state)
  {
    if node in s.workers && s.workers[node].state.Alive? && s.workers[node].freeSlots != 0 {
      Scheduling.AssignNextState(s, node, now, lease);
    }
  }

  lemma PollStays(s: State, i: WorkerIdentity, now: int, lease: LeaseId)
    ensures TablesStay(s, PollState(s, i, now, lease))
  {
    hide AssignNext;
    AssignStays(TakeDeletes(s, i.node).0, i.node, now, lease);
  }

  lemma RegisterStays(s: State, r: RegisterWorker, addrOk: bool, session: SessionId, now: int, leaseMs: int)
    ensures TablesStay(s, Register(s, r, addrOk, session, now, leaseMs).state)
  {
  }

  lemma NextStays(s: State, h: Bytes -> Digest, a: Action, s': State)
    requires !a.DoSubmit? && !a.DoRelease? && !a.DoReap? && s' == Next(s, h, a)
    ensures TablesStay(s, s')
  {
    hide Register, AssignNext, PollState, Complete, Fail, AckCancel, Cancel, ExpireWorkers, TablesStay;
    match a
    case DoRegister(r, addrOk, session, now, leaseMs) => RegisterStays(s, r, addrOk, session, now, leaseMs);
    case DoAssign(node, now, lease) => AssignStays(s, node, now, lease);
    case DoPoll(i, now, lease) => PollStays(s, i, now, lease);
    case DoComplete(i, report, order) => CompleteStays(s, h, i, report, order);
    case DoFail(i, f, message, kind, now, order) => FailStays(s, i, f, message, kind, now, order);
    case DoAckCancel(i, f, order) => AckStays(s, i, f, order);
    case DoCancel(task, order) => CancelStays(s, task, order);
    case DoExpire(now, retried, order) => ExpireStays(s, now, retried, order);
    case _ => SmallStepStays(s, h, a, s');
  }

  lemma SmallStepStays(s: State, h: Bytes -> Digest, a: Action, s': State)
    requires a.DoHeartbeat? || a.DoDrain? || a.DoStarted? || a.DoTakeDeletes? || a.DoPut? || a.DoPutMeta?
    requires s' == Next(s, h, a)
    ensures TablesStay(s, s')
  {
  }

  /** Only a submission brings a new task. */
  lemma NoNewTasks(s: State, h: Bytes -> Digest, a: Action, s': State, t: TaskId)
    requires Inv(s) && !a.DoSubmit? && Legal(s, h, a) && s' == Next(s, h, a) && t in s'.tasks
    ensures t in s.tasks
  {
    hide Inv, Legal;
    E.NextEvolves(s, h, a, s');
    if a.DoReap? {
      E.ReleaseAllBorn(Stamp(s, a.now), a.due);
    } else if !a.DoRelease? {
      NextStays(s, h, a, s');
    }
  }

  // ---------------------------------------------------------------- the queue

  lemma SettleQueues(mid: State, order: seq<TaskId>)
    ensures Settle(mid, order).runnable == mid.runnable + order
  {
  }

  lemma CompleteQueues(s: State, h: Bytes -> Digest, i: WorkerIdentity, r: TaskCompletion, order: seq<TaskId>)
    ensures s.runnable <= Complete(s, h, i, r, order).state.runnable
  {
    hide Settle;
    if CompleteVerdict(s, h, i, r).Apply? {
      SettleQueues(CompleteMid(s, i, r), order);
    }
  }

  lemma FailQueues(s: State, i: WorkerIdentity, f: TaskFence, message: string, kind: FailureClass, now: int,
                   order: seq<TaskId>)
    ensures s.runnable <= Fail(s, i, f, message, kind, now, order).state.runnable
  {
    hide Settle, RetryBackoff;
    if FailVerdict(s, i, f).Apply? {
      SettleQueues(FailMid(s, i, f, message, kind, now), order);
    }
  }

  lemma AckQueues(s: State, i: WorkerIdentity, f: TaskFence, order: seq<TaskId>)
    ensures s.runnable <= AckCancel(s, i, f, order).state.runnable
  {
    hide Settle;
    if AckVerdict(s, i, f).Apply? {
      SettleQueues(AckMid(s, i, f), order);
    }
  }

  lemma CancelQueues(s: State, t: TaskId, order: seq<TaskId>)
    ensures s.runnable <= Cancel(s, t, order).state.runnable
  {
    hide Settle;
    if CancelVerdict(s, t).Apply? {
      SettleQueues(CancelMid(s, t), order);
    }
  }

  lemma ExpireQueues(s: State, now: int, retried: seq<TaskId>, order: seq<TaskId>)
    ensures s.runnable <= ExpireWorkers(s, now, retried, order).runnable
  {
    hide Settle;
    SettleQueues(EvictAll(s, now, retried), order);
  }

  lemma {:induction false} ReleaseAllQueue(s: State, order: seq<ObjectId>)
    ensures ReleaseAll(s, order).0.runnable == s.runnable
    decreases |order|
  {
    if order != [] {
      ReleaseAllQueue(s, order[..|order| - 1]);
    }
  }

  lemma SubmitQueues(s: State, op: OperationKey, args: seq<TaskArg>, resources: ResourceSet, maxAttempts: int,
                     id: TaskId, output: ObjectId)
    ensures s.runnable <= Submit(s, op, args, resources, maxAttempts, id, output).state.runnable
  {
    hide SubmitCheck;
  }

  lemma RegisterQueues(s: State, r: RegisterWorker, addrOk: bool, session: SessionId, now: int, leaseMs: int)
    ensures Register(s, r, addrOk, session, now, leaseMs).state.runnable == s.runnable
  {
  }

  lemma SmallStepQueues(s: State, h: Bytes -> Digest, a: Action, s': State)
    requires || a.DoHeartbeat? || a.DoDrain? || a.DoStarted? || a.DoTakeDeletes? || a.DoPut? || a.DoPutMeta?
             || a.DoRelease?
    requires s' == Next(s, h, a)
    ensures s'.runnable == s.runnable
  {
  }

  /** The queue is first come, first served: only the scheduler takes tasks out or moves them, and every other call
      adds at the end at most. */
  lemma OnlySchedulingReorders(s: State, h: Bytes -> Digest, a: Action, s': State)
    requires s' == Next(s, h, a) && !a.DoAssign? && !a.DoPoll?
    ensures s.runnable <= s'.runnable
  {
    hide Register, Submit, Complete, Fail, AckCancel, Cancel, ExpireWorkers, ReleaseAll, Started, Heartbeat, Drain,
         Admit, ReleaseObject, TakeDeletes;
    match a
    case DoRegister(r, addrOk, session, now, leaseMs) => RegisterQueues(s, r, addrOk, session, now, leaseMs);
    case DoSubmit(op, args, resources, maxAttempts, task, output) =>
      SubmitQueues(s, op, args, resources, maxAttempts, task, output);
    case DoComplete(i, report, order) => CompleteQueues(s, h, i, report, order);
    case DoFail(i, f, message, kind, now, order) => FailQueues(s, i, f, message, kind, now, order);
    case DoAckCancel(i, f, order) => AckQueues(s, i, f, order);
    case DoCancel(task, order) => CancelQueues(s, task, order);
    case DoExpire(now, retried, order) => ExpireQueues(s, now, retried, order);
    case DoReap(now, due) => ReleaseAllQueue(Stamp(s, now), due);
    case _ => SmallStepQueues(s, h, a, s');
  }
}
