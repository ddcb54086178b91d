/** The revision that waiting clients watch: whenever a reader would be told something new, it has moved on. */
module Notices {
  import opened Types
  import opened Model
  import opened Scheduling
  import opened Runs
  import opened Resources

  /** Every object and the state of every task look the same. */
  ghost predicate LooksTheSame(s: State, s': State)
  {
    && s'.objects == s.objects && s'.tasks.Keys == s.tasks.Keys
    && forall t :: t in s.tasks ==> s'.tasks[t].state == s.tasks[t].state
  }

  ghost predicate Announced(s: State, s': State)
  {
    s.revision <= s'.revision && (s'.revision == s.revision ==> LooksTheSame(s, s'))
  }

  lemma CompleteAnnounced(s: State, h: Bytes -> Digest, i: WorkerIdentity, r: TaskCompletion, order: seq<TaskId>)
    ensures Announced(s, Complete(s, h, i, r, order).state)
  {
    hide SettleBy;
    if CompleteVerdict(s, h, i, r).Apply? {
      SettleRevision(CompleteMid(s, i, r), order);
    }
  }

  lemma SettleRevision(mid: State, order: seq<TaskId>)
    ensures Settle(mid, order).revision == mid.revision
  {
  }

  lemma FailAnnounced(s: State, i: WorkerIdentity, f: TaskFence, message: string, kind: FailureClass, now: int,
                      order: seq<TaskId>)
    ensures Announced(s, Fail(s, i, f, message, kind, now, order).state)
  {
    hide SettleBy, RetryBackoff;
    if FailVerdict(s, i, f).Apply? {
      SettleRevision(FailMid(s, i, f, message, kind, now), order);
    }
  }

  lemma AckAnnounced(s: State, i: WorkerIdentity, f: TaskFence, order: seq<TaskId>)
    ensures Announced(s, AckCancel(s, i, f, order).state)
  {
    hide SettleBy;
    if AckVerdict(s, i, f).Apply? {
      SettleRevision(AckMid(s, i, f), order);
    }
  }

  lemma CancelAnnounced(s: State, t: TaskId, order: seq<TaskId>)
    ensures Announced(s, Cancel(s, t, order).state)
  {
    hide SettleBy;
    if CancelVerdict(s, t).Apply? {
      SettleRevision(CancelMid(s, t), order);
    }
  }

  lemma ExpireAnnounced(s: State, now: int, retried: seq<TaskId>, order: seq<TaskId>)
    ensures Announced(s, ExpireWorkers(s, now, retried, order))
  {
    hide SettleBy, EvictedTasks, EvictedObjects, EvictedOutputs, HeldBy;
    SettleRevision(EvictAll(s, now, retried), order);
  }

  lemma AssignAnnounced(s: State, node: NodeId, now: int, lease: LeaseId)
    ensures Announced(s, AssignNext(s, node, now, lease).state)
  {
    if node in s.workers && s.workers[node].state.Alive? && s.workers[node].freeSlots != 0 {
      AssignNextState(s, node, now, lease);
    }
  }

  lemma PollAnnounced(s: State, i: WorkerIdentity, now: int, lease: LeaseId)
    ensures Announced(s, PollState(s, i, now, lease))
  {
    hide AssignNext;
    AssignAnnounced(TakeDeletes(s, i.node).0, i.node, now, lease);
  }

  lemma ReleaseAnnounced(s: State, id: ObjectId)
    ensures Announced(s, ReleaseObject(s, id).state)
  {
  }

  lemma {:induction false} ReleaseAllAnnounced(s: State, order: seq<ObjectId>)
    ensures Announced(s, ReleaseAll(s, order).0)
    decreases |order|
  {
    if order != [] {
      var init := order[..|order| - 1];
      ReleaseAllAnnounced(s, init);
      ReleaseAnnounced(ReleaseAll(s, init).0, order[|order| - 1]);
      hide ReleaseObject;
    }
  }

  lemma ReapAnnounced(s: State, now: int, due: seq<ObjectId>)
    ensures Announced(s, Reap(s, now, due).0)
  {
    ReleaseAllAnnounced(Stamp(s, now), due);
    hide ReleaseAll;
    assert LooksTheSame(s, Stamp(s, now));
  }

  lemma RegisterAnnounced(s: State, r: RegisterWorker, addrOk: bool, session: SessionId, now: int, leaseMs: int)
    ensures Announced(s, Register(s, r, addrOk, session, now, leaseMs).state)
  {
  }

  lemma SubmitAnnounced(s: State, op: OperationKey, args: seq<TaskArg>, resources: ResourceSet, maxAttempts: int,
                        id: TaskId, output: ObjectId)
    ensures Announced(s, Submit(s, op, args, resources, maxAttempts, id, output).state)
  {
    hide SubmitCheck;
  }

  lemma AdmitAnnounced(s: State, id: ObjectId, codec: Codec, size: int, checksum: Digest, bytes: Option<Bytes>)
    ensures Announced(s, Admit(s, id, codec, size, checksum, bytes).state)
  {
  }

  lemma StartedAnnounced(s: State, i: WorkerIdentity, f: TaskFence)
    ensures Announced(s, Started(s, i, f).state)
  {
  }

  lemma WorkersAnnounced(s: State, h: Bytes -> Digest, a: Action, s': State)
    requires (a.DoHeartbeat? || a.DoDrain? || a.DoTakeDeletes?) && s' == Next(s, h, a)
    ensures Announced(s, s')
  {
  }

  lemma NextAnnounced(s: State, h: Bytes -> Digest, a: Action, s': State)
    requires s' == Next(s, h, a)
    ensures Announced(s, s')
  {
    hide Announced, Register, Admit, Submit, AssignNext, PollState, Started, Complete, Fail, AckCancel, Cancel,
         ReleaseObject, ExpireWorkers, Reap, Heartbeat, Drain, TakeDeletes;
    match a
    case DoRegister(r, addrOk, session, now, leaseMs) => RegisterAnnounced(s, r, addrOk, session, now, leaseMs);
    case DoPut(codec, bytes) => AdmitAnnounced(s, h(bytes), codec, |bytes|, h(bytes), Some(bytes));
    case DoPutMeta(id, codec, size, checksum) => AdmitAnnounced(s, id, codec, size, checksum, None);
    case DoSubmit(op, args, resources, maxAttempts, task, output) =>
      SubmitAnnounced(s, op, args, resources, maxAttempts, task, output);
    case DoAssign(node, now, lease) => AssignAnnounced(s, node, now, lease);
    case DoPoll(i, now, lease) => PollAnnounced(s, i, now, lease);
    case DoStarted(i, f) => StartedAnnounced(s, i, f);
    case DoComplete(i, report, order) => CompleteAnnounced(s, h, i, report, order);
    case DoFail(i, f, message, kind, now, order) => FailAnnounced(s, i, f, message, kind, now, order);
    case DoAckCancel(i, f, order) => AckAnnounced(s, i, f, order);
    case DoCancel(task, order) => CancelAnnounced(s, task, order);
    case DoRelease(id) => ReleaseAnnounced(s, id);
    case DoExpire(now, retried, order) => ExpireAnnounced(s, now, retried, order);
    case DoReap(now, due) => ReapAnnounced(s, now, due);
    case _ => WorkersAnnounced(s, h, a, s');
  }

  /** As long as the revision has not moved, no read and no task status has a new answer, so a client that waits for
      it to move misses nothing. It never moves back. */
  lemma {:induction false} WaitersMissNothing(h: Bytes -> Digest, states: seq<State>, actions: seq<Action>, i: nat,
                                              j: nat)
    requires IsRun(h, states, actions) && i <= j < |states|
    ensures states[i].revision <= states[j].revision
    ensures states[i].revision == states[j].revision ==>
      && (forall id :: Resolve(states[j], id) == Resolve(states[i], id))
      && (forall t :: t in states[j].tasks <==> t in states[i].tasks)
      && (forall t :: t in states[j].tasks ==> states[j].tasks[t].state == states[i].tasks[t].state)
    decreases j
  {
    hide Legal, Next;
    if i < j {
      WaitersMissNothing(h, states, actions, i, j - 1);
      assert StepAt(h, states, actions, j - 1);
      NextAnnounced(states[j - 1], h, actions[j - 1], states[j]);
      if states[j - 1].revision == states[j].revision {
        assert states[j].tasks.Keys == states[j - 1].tasks.Keys;
      }
    }
  }
}
