/** Why things are as they are, in any run: who wrote what a reader gets, why an object is lost, why a task failed. */
module Causes {
  import opened Types
  import opened Model
  import opened Invariants
  import opened Scheduling
  import opened Reclaim
  import opened Runs
  import opened Submission
  import opened Reconciliation
  import opened Reports
  import opened Leases

  // ---------------------------------------------------------------- what a reader is told

  /** An object resolves exactly when its record is available, to that record. It is pending exactly while an
      unfinished task is to produce it, and it is reported lost exactly when it is. */
  lemma ResolveMeans(s: State, id: ObjectId)
    requires Inv(s)
    ensures Resolve(s, id).Ok? <==> id in s.objects && s.objects[id].state == Available
    ensures Resolve(s, id).Ok? ==>
      var p, o := Resolve(s, id).value, s.objects[id];
      p.id == id && Some(p.codec) == o.codec && Some(p.size) == o.size && Some(p.checksum) == o.checksum
      && Some(p.location) == o.location && p.bytes == o.bytes
    ensures Resolve(s, id) == Err(ObjectPending(id)) <==>
      exists t :: t in s.tasks && s.tasks[t].output == id
        && !s.tasks[t].state.Succeeded? && !s.tasks[t].state.Failed? && !s.tasks[t].state.Cancelled?
    ensures Resolve(s, id) == Err(ObjectLost(id)) <==> id in s.objects && s.objects[id].state == Lost
  {
    hide Conserved, LineageMatches, QueueMatches, HoldersMatch;
    if id in s.objects && s.objects[id].state == Reserved {
      assert id in OutputsOf(s.tasks, s.tasks.Keys);
      var t :| t in s.tasks && s.tasks[t].output == id;
      assert !s.tasks[t].state.Terminal();
    }
  }

  // ---------------------------------------------------------------- records from step to step

  /** Records that are available or lost in `s'` were there before, and the same. */
  ghost predicate RecordsQuiet(s: State, s': State)
  {
    forall o :: o in s'.objects && (s'.objects[o].state == Available || s'.objects[o].state == Lost) ==>
      o in s.objects && s'.objects[o] == s.objects[o]
  }

  /** The same, except for the record of `id`. */
  ghost predicate RecordsQuietBut(s: State, s': State, id: ObjectId)
  {
    forall o :: o != id && o in s'.objects && (s'.objects[o].state == Available || s'.objects[o].state == Lost) ==>
      o in s.objects && s'.objects[o] == s.objects[o]
  }

  lemma ReconciledRecords(tasks: map<TaskId, Task>, objects: map<ObjectId, ObjectRecord>, s': State, o: ObjectId)
    requires Reconciled(tasks, objects, s') && o in s'.objects
    requires s'.objects[o].state == Available || s'.objects[o].state == Lost
    ensures o in objects && s'.objects[o] == objects[o]
  {
    assert o in objects.Keys;
  }

  lemma EndsQuietly(s: State, s': State, t: TaskId, task: Task, record: ObjectRecord)
    requires EndsAs(s, s', t, task, record)
    ensures RecordsQuietBut(s, s', task.output)
    ensures task.output in s'.objects
    ensures s'.objects[task.output].state == Available || s'.objects[task.output].state == Lost ==>
      s'.objects[task.output] == record
  {
    forall o | o in s'.objects && (s'.objects[o].state == Available || s'.objects[o].state == Lost)
      ensures o in s.objects[task.output := record] && s'.objects[o] == s.objects[task.output := record][o]
    {
      ReconciledRecords(s.tasks[t := task], s.objects[task.output := record], s', o);
    }
    assert task.output in s.objects[task.output := record].Keys;
  }

  /** Tasks that have failed in `s'` had failed before, the same way. */
  ghost predicate FailuresQuiet(s: State, s': State)
  {
    forall t :: t in s'.tasks && s'.tasks[t].state.Failed? ==>
      t in s.tasks && s.tasks[t].state == s'.tasks[t].state
  }

  /** Calls that end no task and write no record. */
  predicate Harmless(a: Action)
  {
    || a.DoRegister? || a.DoHeartbeat? || a.DoDrain? || a.DoAssign? || a.DoPoll? || a.DoStarted? || a.DoTakeDeletes?
    || a.DoSubmit? || a.DoRelease? || a.DoReap?
  }

  lemma AssignQuiet(s: State, n: NodeId, now: int, lease: LeaseId)
    ensures var s' := AssignNext(s, n, now, lease).state; RecordsQuiet(s, s') && FailuresQuiet(s, s')
  {
    if n in s.workers && s.workers[n].state.Alive? && s.workers[n].freeSlots != 0 {
      AssignNextState(s, n, now, lease);
    }
  }

  lemma PollQuiet(s: State, i: WorkerIdentity, now: int, lease: LeaseId)
    ensures var s' := PollState(s, i, now, lease); RecordsQuiet(s, s') && FailuresQuiet(s, s')
  {
    hide AssignNext;
    AssignQuiet(TakeDeletes(s, i.node).0, i.node, now, lease);
  }

  lemma RegisterQuiet(s: State, r: RegisterWorker, addrOk: bool, session: SessionId, now: int, leaseMs: int)
    ensures var s' := Register(s, r, addrOk, session, now, leaseMs).state;
      s'.objects == s.objects && s'.tasks == s.tasks
  {
  }

  lemma SubmitQuiet(s: State, h: Bytes -> Digest, a: Action, s': State)
    requires a.DoSubmit? && Legal(s, h, a) && s' == Next(s, h, a)
    ensures RecordsQuiet(s, s') && FailuresQuiet(s, s')
  {
    hide Submit, MustWait, SomeoneCould;
    SubmitAcceptedIff(s, a.op, a.args, a.resources, a.maxAttempts, a.task, a.output);
    if Acceptable(s, a.op, a.args, a.resources, a.maxAttempts) {
      SubmitFiles(s, a.op, a.args, a.resources, a.maxAttempts, a.task, a.output);
    }
  }

  lemma ReapQuiet(s: State, h: Bytes -> Digest, a: Action, s': State)
    requires Inv(s) && a.DoReap? && Legal(s, h, a) && s' == Next(s, h, a)
    ensures RecordsQuiet(s, s') && FailuresQuiet(s, s')
  {
    hide Inv, Reap, DueOutputs;
    ReapKeepsTables(s, a.now, a.due);
  }

  lemma ReapKeepsTables(s: State, now: int, due: seq<ObjectId>)
    requires Inv(s) && IsOrder(due, DueOutputs(Stamp(s, now), now))
    ensures var s' := Reap(s, now, due).0;
      && (forall o :: o in s'.objects ==> o in s.objects && s'.objects[o] == s.objects[o])
      && (forall t :: t in s'.tasks ==> t in s.tasks && s'.tasks[t].state == s.tasks[t].state)
  {
    hide Conserved, LineageMatches, QueueMatches, HoldersMatch, Reap, DueTasks, DueOutputs;
    ReapExact(s, now, due);
  }

  lemma HarmlessStep(s: State, h: Bytes -> Digest, a: Action, s': State)
    requires Inv(s) && Legal(s, h, a) && Harmless(a) && s' == Next(s, h, a)
    ensures RecordsQuiet(s, s') && FailuresQuiet(s, s')
  {
    hide Inv, Legal, Register, AssignNext, PollState, Submit, Reap, ReleaseObject, Heartbeat, Drain, Started,
         TakeDeletes;
    match a
    case DoRegister(r, addrOk, session, now, leaseMs) => RegisterQuiet(s, r, addrOk, session, now, leaseMs);
    case DoAssign(n, now, lease) => AssignQuiet(s, n, now, lease);
    case DoPoll(i, now, lease) => PollQuiet(s, i, now, lease);
    case DoSubmit(_, _, _, _, _, _) => SubmitQuiet(s, h, a, s');
    case DoReap(_, _) => ReapQuiet(s, h, a, s');
    case _ => SmallQuiet(s, h, a, s');
  }

  lemma SmallQuiet(s: State, h: Bytes -> Digest, a: Action, s': State)
    requires a.DoHeartbeat? || a.DoDrain? || a.DoStarted? || a.DoTakeDeletes? || a.DoRelease?
    requires s' == Next(s, h, a)
    ensures RecordsQuiet(s, s') && FailuresQuiet(s, s')
  {
    hide Heartbeat, Drain, Started, ReleaseObject, TakeDeletes, RecordsQuiet, FailuresQuiet;
    match a
    case DoHeartbeat(i, now, leaseMs) => HeartbeatQuiet(s, i, now, leaseMs);
    case DoDrain(i) => DrainQuiet(s, i);
    case DoStarted(i, f) => StartedQuiet(s, i, f);
    case DoTakeDeletes(n) => TakeDeletesQuiet(s, n);
    case DoRelease(id) => ReleaseQuiet(s, id);
  }

  lemma HeartbeatQuiet(s: State, i: WorkerIdentity, now: int, leaseMs: int)
    ensures var s' := Heartbeat(s, i, now, leaseMs).state; RecordsQuiet(s, s') && FailuresQuiet(s, s')
  {
  }

  lemma DrainQuiet(s: State, i: WorkerIdentity)
    ensures var s' := Drain(s, i).state; RecordsQuiet(s, s') && FailuresQuiet(s, s')
  {
  }

  lemma StartedQuiet(s: State, i: WorkerIdentity, f: TaskFence)
    ensures var s' := Started(s, i, f).state; RecordsQuiet(s, s') && FailuresQuiet(s, s')
  {
  }

  lemma TakeDeletesQuiet(s: State, n: NodeId)
    ensures var s' := TakeDeletes(s, n).0; RecordsQuiet(s, s') && FailuresQuiet(s, s')
  {
  }

  lemma ReleaseQuiet(s: State, id: ObjectId)
    ensures RecordsQuiet(s, ReleaseObject(s, id).state) && FailuresQuiet(s, ReleaseObject(s, id).state)
  {
  }

  // ---------------------------------------------------------------- failures

  /** A waiting task is given up because an input will never come. */
  predicate InputGone(s: State, s': State, t: TaskId)
    requires t in s.tasks
  {
    && s.tasks[t].state == Waiting
    && exists k :: 0 <= k < |s.tasks[t].args| && s.tasks[t].args[k].ObjectArg?
         && NeverComes(s'.objects, s.tasks[t].args[k].id)
  }

  /** Why task `t` ends as failed with this message in the step from `s` to `s'`: its holder reported a permanent
      failure, or any failure of the last attempt; the holder's lease ran out on the last attempt; or an input will
      never come. */
  predicate FailedBecause(s: State, a: Action, s': State, t: TaskId, message: string)
  {
    && t in s.tasks
    && (|| (&& a.DoFail? && a.f.task == t && a.message == message && HoldsNow(s, a.i, a.f)
            && (a.kind == Permanent || s.tasks[t].attempt == s.tasks[t].maxAttempts))
        || (&& a.DoExpire? && message == "worker lease expired" && s.tasks[t].attempt == s.tasks[t].maxAttempts
            && s.tasks[t].holder.Some? && Lapsed(s, a.now, s.tasks[t].holder.value.node))
        || (message == "dependency failed" && InputGone(s, s', t)))
  }

  lemma JudgedFailed(task: Task, objects: map<ObjectId, ObjectRecord>, verdict: TaskState)
    requires JudgedBy(task, objects, verdict) && verdict.Failed?
    ensures verdict.message == "dependency failed"
    ensures exists k :: 0 <= k < |task.args| && task.args[k].ObjectArg? && NeverComes(objects, task.args[k].id)
  {
    var inputs := set arg | arg in task.args && arg.ObjectArg? :: arg.id;
    var o :| o in inputs && NeverComes(objects, o);
    var arg :| arg in task.args && arg.ObjectArg? && arg.id == o;
    var k :| 0 <= k < |task.args| && task.args[k] == arg;
  }

  /** After an ended attempt, another task that has failed was given up. */
  lemma EndsOthers(s: State, s': State, t: TaskId, task: Task, record: ObjectRecord, u: TaskId)
    requires t in s.tasks && EndsAs(s, s', t, task, record) && !task.state.Waiting?
    requires u in s'.tasks && s'.tasks[u].state.Failed?
    ensures u in s.tasks
    ensures u == t ==> s'.tasks[t] == task
    ensures u != t && !s.tasks[u].state.Failed? ==>
      s'.tasks[u].state.message == "dependency failed" && InputGone(s, s', u)
    ensures u != t && s.tasks[u].state.Failed? ==> s'.tasks[u].state == s.tasks[u].state
  {
    var tasks := s.tasks[t := task];
    assert u in tasks.Keys;
    if u != t && s.tasks[u].state == Waiting {
      JudgedFailed(s.tasks[u], s'.objects, s'.tasks[u].state);
    }
  }

  /** What is to be shown of every task that has failed after a step. */
  predicate Explained(s: State, a: Action, s': State, u: TaskId)
    requires u in s'.tasks && s'.tasks[u].state.Failed?
  {
    && u in s.tasks
    && (s'.tasks[u].state == s.tasks[u].state || FailedBecause(s, a, s', u, s'.tasks[u].state.message))
  }

  lemma CompleteFailures(s: State, h: Bytes -> Digest, a: Action, s': State, u: TaskId)
    requires Inv(s) && a.DoComplete? && s' == Next(s, h, a) && u in s'.tasks && s'.tasks[u].state.Failed?
    ensures Explained(s, a, s', u)
  {
    hide Complete, EndsAs, HandsBack, Conserved, LineageMatches, QueueMatches, Fits;
    var r, t := a.report, a.report.fence.task;
    CompleteEffect(s, h, a.i, r, a.order);
    if s' != s {
      EndsOthers(s, s', t, s.tasks[t].(state := Succeeded, holder := None),
                 ObjectRecord(Available, Some(r.codec), r.bytes, Some(r.size), Some(r.checksum), Some(r.location),
                              Some(a.i.node)), u);
    }
  }

  lemma FailFailures(s: State, h: Bytes -> Digest, a: Action, s': State, u: TaskId)
    requires Inv(s) && a.DoFail? && s' == Next(s, h, a) && u in s'.tasks && s'.tasks[u].state.Failed?
    ensures Explained(s, a, s', u)
  {
    hide Fail, EndsAs, HandsBack, Conserved, LineageMatches, QueueMatches, BackoffAfter;
    var t := a.f.task;
    FailEffect(s, a.i, a.f, a.message, a.kind, a.now, a.order);
    if Fail(s, a.i, a.f, a.message, a.kind, a.now, a.order).reply == Ok(true) {
      EndsOthers(s, s', t, s.tasks[t].(state := TaskState.Failed(a.message), holder := None),
                 s.objects[s.tasks[t].output].(state := ProducerFailed), u);
    }
  }

  lemma AckFailures(s: State, h: Bytes -> Digest, a: Action, s': State, u: TaskId)
    requires Inv(s) && a.DoAckCancel? && s' == Next(s, h, a) && u in s'.tasks && s'.tasks[u].state.Failed?
    ensures Explained(s, a, s', u)
  {
    hide AckCancel, EndsAs, HandsBack, Conserved, LineageMatches, QueueMatches;
    var t := a.f.task;
    AckCancelEffect(s, a.i, a.f, a.order);
    if s' != s {
      EndsOthers(s, s', t, s.tasks[t].(state := TaskState.Cancelled, holder := None),
                 s.objects[s.tasks[t].output].(state := ProducerCancelled), u);
    }
  }

  lemma CancelFailures(s: State, h: Bytes -> Digest, a: Action, s': State, u: TaskId)
    requires Inv(s) && a.DoCancel? && s' == Next(s, h, a) && u in s'.tasks && s'.tasks[u].state.Failed?
    ensures Explained(s, a, s', u)
  {
    hide Cancel, EndsAs, Conserved, LineageMatches, QueueMatches;
    var t := a.task;
    CancelEffect(s, t, a.order);
    if t in s.tasks && (s.tasks[t].state == Waiting || s.tasks[t].state == Runnable) {
      EndsOthers(s, s', t, s.tasks[t].(state := TaskState.Cancelled),
                 s.objects[s.tasks[t].output].(state := ProducerCancelled), u);
    }
  }

  lemma ExpireFailures(s: State, h: Bytes -> Digest, a: Action, s': State, u: TaskId)
    requires Inv(s) && a.DoExpire? && Legal(s, h, a) && s' == Next(s, h, a)
    requires u in s'.tasks && s'.tasks[u].state.Failed?
    ensures Explained(s, a, s', u)
  {
    hide Inv, ExpireWorkers, InputGone, Retried, HeldBy, Expired;
    ExpiredFailures(s, a.now, a.retried, a.order, s', u);
  }

  lemma ExpiredFailures(s: State, now: int, retried: seq<TaskId>, order: seq<TaskId>, s': State, u: TaskId)
    requires Inv(s) && s' == ExpireWorkers(s, now, retried, order)
    requires IsOrder(retried, Retried(s, HeldBy(s, Expired(s, now))))
    requires u in s'.tasks && s'.tasks[u].state.Failed?
    ensures u in s.tasks
    ensures || s'.tasks[u].state == s.tasks[u].state
            || (s'.tasks[u].state.message == "dependency failed" && InputGone(s, s', u))
            || (&& s'.tasks[u].state.message == "worker lease expired" && s.tasks[u].holder.Some?
                && s.tasks[u].attempt == s.tasks[u].maxAttempts && Lapsed(s, now, s.tasks[u].holder.value.node))
  {
    hide ExpireWorkers, Reconciled, TasksAfter, ObjectsAfter, Lapsed, Conserved, LineageMatches, QueueMatches,
         OutputsMatch, HoldersMatch, ObjectsMatch, BackoffAfter;
    ExpireEffect(s, now, retried, order, s');
    ReconciledFailed(TasksAfter(s, now), ObjectsAfter(s, now), s', u);
    AfterIs(s, now, u);
    assert AttemptsOk(s.tasks[u]);
  }

  lemma AfterIs(s: State, now: int, u: TaskId)
    ensures u in TasksAfter(s, now) <==> u in s.tasks
    ensures u in s.tasks ==> TasksAfter(s, now)[u] == TaskAfter(s, now, s.tasks[u])
  {
  }

  lemma ReconciledFailed(tasks: map<TaskId, Task>, objects: map<ObjectId, ObjectRecord>, s': State, u: TaskId)
    requires Reconciled(tasks, objects, s') && u in s'.tasks && s'.tasks[u].state.Failed?
    ensures u in tasks
    ensures tasks[u].state == Waiting || tasks[u].state == s'.tasks[u].state
    ensures tasks[u].state == Waiting ==>
      && s'.tasks[u].state.message == "dependency failed"
      && exists k :: 0 <= k < |tasks[u].args| && tasks[u].args[k].ObjectArg?
           && NeverComes(s'.objects, tasks[u].args[k].id)
  {
    assert u in tasks.Keys;
    if tasks[u].state == Waiting {
      JudgedFailed(tasks[u], s'.objects, s'.tasks[u].state);
    }
  }

  lemma FailureStep(s: State, h: Bytes -> Digest, a: Action, s': State, u: TaskId)
    requires Inv(s) && Legal(s, h, a) && s' == Next(s, h, a) && u in s'.tasks && s'.tasks[u].state.Failed?
    ensures Explained(s, a, s', u)
  {
    hide Inv, Legal, Next, FailedBecause;
    if Harmless(a) {
      HarmlessStep(s, h, a, s');
    } else {
      match a
      case DoComplete(_, _, _) => CompleteFailures(s, h, a, s', u);
      case DoFail(_, _, _, _, _, _) => FailFailures(s, h, a, s', u);
      case DoAckCancel(_, _, _) => AckFailures(s, h, a, s', u);
      case DoCancel(_, _) => CancelFailures(s, h, a, s', u);
      case DoExpire(_, _, _) => ExpireFailures(s, h, a, s', u);
      case DoPut(_, _) => PutKeepsTasks(s, h, a, s');
      case DoPutMeta(_, _, _, _) => PutKeepsTasks(s, h, a, s');
    }
  }

  lemma PutKeepsTasks(s: State, h: Bytes -> Digest, a: Action, s': State)
    requires (a.DoPut? || a.DoPutMeta?) && s' == Next(s, h, a)
    ensures s'.tasks == s.tasks
  {
  }

  /** Every failed task failed at some step of the run, for one of these reasons and with its message. */
  lemma {:induction false} FailureHasCause(h: Bytes -> Digest, states: seq<State>, actions: seq<Action>, k: nat,
                                           t: TaskId)
    returns (j: nat)
    requires IsRun(h, states, actions) && k < |states| && t in states[k].tasks && states[k].tasks[t].state.Failed?
    ensures j < k && FailedBecause(states[j], actions[j], states[j + 1], t, states[k].tasks[t].state.message)
    decreases k
  {
    hide Inv, Legal, Next, FailedBecause;
    assert k > 0;
    RunInv(h, states, actions, k - 1);
    assert StepAt(h, states, actions, k - 1);
    FailureStep(states[k - 1], h, actions[k - 1], states[k], t);
    if states[k - 1].tasks[t].state == states[k].tasks[t].state {
      j := FailureHasCause(h, states, actions, k - 1, t);
    } else {
      j := k - 1;
    }
  }
}
