/** Leases: which workers an expiry removes, what it does with their tasks and objects, and how long a worker that
    renews its lease stays. */
module Leases {
  import opened Types
  import opened Resources
  import opened Model
  import opened Invariants
  import opened Scheduling
  import Expiry
  import opened Runs
  import opened Reconciliation
  import opened Reports

  // ---------------------------------------------------------------- one expiry

  /** The worker is registered and its lease has run out. */
  predicate Lapsed(s: State, now: int, n: NodeId)
  {
    n in s.workers && s.workers[n].leaseDeadline <= now
  }

  /** A task after the lapsed workers are gone: taken from its worker, it is cancelled if that was asked for, queued
      again if attempts are left, and failed otherwise. */
  function TaskAfter(s: State, now: int, task: Task): Task
  {
    if task.holder.None? || !Lapsed(s, now, task.holder.value.node) then task
    else if task.state == CancelRequested then task.(holder := None, state := TaskState.Cancelled)
    else if task.attempt < task.maxAttempts then
      task.(holder := None, state := Runnable, notBefore := SatAdd(now, BackoffAfter(task.attempt)))
    else task.(holder := None, state := TaskState.Failed("worker lease expired"))
  }

  /** A lapsed worker takes the task that produces `o` down with it: cancelled, or failed. */
  predicate ProducerEnds(s: State, now: int, o: ObjectId, cancelled: bool)
  {
    exists t :: t in s.tasks && s.tasks[t].output == o && s.tasks[t].holder.Some?
      && Lapsed(s, now, s.tasks[t].holder.value.node)
      && if cancelled then s.tasks[t].state == CancelRequested
         else s.tasks[t].state != CancelRequested && s.tasks[t].attempt >= s.tasks[t].maxAttempts
  }

  /** An object after the lapsed workers are gone: what they owned is served from its inline bytes, or lost. */
  function RecordAfter(s: State, now: int, o: ObjectId): ObjectRecord
    requires o in s.objects
  {
    var r := s.objects[o];
    if ProducerEnds(s, now, o, true) then r.(state := ProducerCancelled)
    else if ProducerEnds(s, now, o, false) then r.(state := ProducerFailed)
    else if r.state != Available || r.owner.None? || !Lapsed(s, now, r.owner.value) then r
    else if r.bytes.Some? then r.(owner := None, location := Some(Name("coordinator")))
    else r.(owner := None, location := None, state := Lost)
  }

  function TasksAfter(s: State, now: int): map<TaskId, Task>
  {
    map t | t in s.tasks :: TaskAfter(s, now, s.tasks[t])
  }

  function ObjectsAfter(s: State, now: int): map<ObjectId, ObjectRecord>
  {
    map o | o in s.objects :: RecordAfter(s, now, o)
  }

  lemma ExpiredMeans(s: State, now: int)
    requires WorkersMatch(s)
    ensures forall n :: n in Expired(s, now) <==> Lapsed(s, now, n)
  {
  }

  lemma EvictedTasksAre(s: State, now: int, retried: seq<TaskId>)
    requires WorkersMatch(s) && HoldersMatch(s) && AttemptsMatch(s)
    ensures EvictAll(s, now, retried).tasks == TasksAfter(s, now)
  {
    hide RetryBackoff, BackoffAfter;
    ExpiredMeans(s, now);
    var mid := EvictAll(s, now, retried);
    forall t | t in s.tasks ensures mid.tasks[t] == TaskAfter(s, now, s.tasks[t]) {
      if s.tasks[t].holder.Some? {
        BackoffIs(s.tasks[t].attempt);
      }
    }
  }

  lemma EvictedOutputsMean(s: State, now: int, o: ObjectId, cancelled: bool)
    requires WorkersMatch(s)
    ensures o in EvictedOutputs(s, HeldBy(s, Expired(s, now)), cancelled) <==> ProducerEnds(s, now, o, cancelled)
  {
    ExpiredMeans(s, now);
    var held := HeldBy(s, Expired(s, now));
    if o in EvictedOutputs(s, held, cancelled) {
      var t :| t in held && t in s.tasks && !RetriedOnEviction(s.tasks[t])
        && s.tasks[t].state.CancelRequested? == cancelled && s.tasks[t].output == o;
      assert ProducerEnds(s, now, o, cancelled);
    }
    if ProducerEnds(s, now, o, cancelled) {
      var t :| t in s.tasks && s.tasks[t].output == o && s.tasks[t].holder.Some?
        && Lapsed(s, now, s.tasks[t].holder.value.node)
        && if cancelled then s.tasks[t].state == CancelRequested
           else s.tasks[t].state != CancelRequested && s.tasks[t].attempt >= s.tasks[t].maxAttempts;
      assert t in held;
    }
  }

  lemma EvictedObjectsAre(s: State, now: int, retried: seq<TaskId>)
    requires WorkersMatch(s)
    ensures EvictAll(s, now, retried).objects == ObjectsAfter(s, now)
  {
    hide ProducerEnds, EvictedOutputs, HeldBy;
    ExpiredMeans(s, now);
    var mid := EvictAll(s, now, retried);
    forall o | o in s.objects ensures mid.objects[o] == RecordAfter(s, now, o) {
      EvictedOutputsMean(s, now, o, true);
      EvictedOutputsMean(s, now, o, false);
    }
  }

  /** A settled state is its own reconciliation. */
  lemma SettledIsReconciled(s: State)
    requires SetsMatch(s) && Settled(s)
    ensures Reconciled(s.tasks, s.objects, s)
  {
    forall t | t in s.tasks && s.tasks[t].state == Waiting ensures JudgedBy(s.tasks[t], s.objects, Waiting) {
      assert !HasBroken(s, t) && !AllAvailable(s, t);
      assert forall o :: o in Deps(s.tasks[t]) ==> !Broken(s, o);
      var o :| o in Deps(s.tasks[t]) && !IsAvailable(s, o);
      assert !IsThere(s.objects, o);
    }
  }

  lemma NothingLapsed(s: State, now: int)
    requires WorkersMatch(s) && HoldersMatch(s) && Expired(s, now) == {}
    ensures forall n :: !Lapsed(s, now, n)
    ensures TasksAfter(s, now) == s.tasks && ObjectsAfter(s, now) == s.objects
  {
    hide Lapsed, BackoffAfter;
    ExpiredMeans(s, now);
    forall t | t in s.tasks ensures TasksAfter(s, now)[t] == s.tasks[t] {
    }
    forall o | o in s.objects ensures ObjectsAfter(s, now)[o] == s.objects[o] {
    }
  }

  lemma ExpireWorkersEffect(s: State, now: int, retried: seq<TaskId>, order: seq<TaskId>, s': State)
    requires WorkersMatch(s) && s' == ExpireWorkers(s, now, retried, order)
    ensures forall n :: n in s'.workers <==> n in s.workers && now < s.workers[n].leaseDeadline
    ensures forall n :: n in s'.workers ==> s'.workers[n] == s.workers[n]
    ensures forall n :: n in s'.pendingDeletes <==> n in s.pendingDeletes && !Lapsed(s, now, n)
    ensures forall n :: n in s'.pendingDeletes ==> s'.pendingDeletes[n] == s.pendingDeletes[n]
  {
    hide Settle, EvictedTasks, EvictedObjects, EvictedOutputs, HeldBy;
    assert forall n :: n in s.workers ==> (n in Expired(s, now) <==> s.workers[n].leaseDeadline <= now);
    var mid := EvictAll(s, now, retried);
    SettleWorkers(mid, order);
    SettleDeletes(mid, order);
  }

  lemma ExpireReconciles(s: State, now: int, retried: seq<TaskId>, order: seq<TaskId>, s': State)
    requires Inv(s) && s' == ExpireWorkers(s, now, retried, order)
    requires IsOrder(retried, Retried(s, HeldBy(s, Expired(s, now))))
    ensures Reconciled(TasksAfter(s, now), ObjectsAfter(s, now), s')
  {
    hide Conserved, QueueMatches, LineageMatches, Settle, Reconciled, OutputsMatch, ObjectsMatch, EvictAll,
         HoldersMatch, TasksAfter, ObjectsAfter, SetsMatch, Settled;
    if Expired(s, now) == {} {
      NothingLapsed(s, now);
      SettledIsReconciled(s);
    } else {
      var mid := EvictAll(s, now, retried);
      assert Consistent(mid) by {
        EvictAllKeeps(s, now, retried);
      }
      EvictedTasksAre(s, now, retried);
      EvictedObjectsAre(s, now, retried);
      SettleReconciles(mid, order, Settle(mid, order));
      SameReconciled(mid, Settle(mid, order), s');
    }
  }

  lemma EvictAllKeeps(s: State, now: int, retried: seq<TaskId>)
    requires Consistent(s) && IsOrder(retried, Retried(s, HeldBy(s, Expired(s, now))))
    ensures Consistent(EvictAll(s, now, retried))
  {
    hide Consistent;
    Expiry.EvictKeeps(s, Expired(s, now), HeldBy(s, Expired(s, now)), now, retried);
  }

  /** An expiry removes exactly the workers whose lease has run out, with the deletes queued for them. Tasks and
      objects become what they are without those workers, and then the waiting tasks are judged. */
  lemma ExpireEffect(s: State, now: int, retried: seq<TaskId>, order: seq<TaskId>, s': State)
    requires Inv(s) && s' == ExpireWorkers(s, now, retried, order)
    requires IsOrder(retried, Retried(s, HeldBy(s, Expired(s, now))))
    ensures forall n :: n in s'.workers <==> n in s.workers && now < s.workers[n].leaseDeadline
    ensures forall n :: n in s'.workers ==> s'.workers[n] == s.workers[n]
    ensures forall n :: n in s'.pendingDeletes <==> n in s.pendingDeletes && !Lapsed(s, now, n)
    ensures forall n :: n in s'.pendingDeletes ==> s'.pendingDeletes[n] == s.pendingDeletes[n]
    ensures Reconciled(TasksAfter(s, now), ObjectsAfter(s, now), s')
  {
    hide ExpireWorkers, Reconciled, Conserved, QueueMatches, LineageMatches;
    ExpireWorkersEffect(s, now, retried, order, s');
    ExpireReconciles(s, now, retried, order, s');
  }

  lemma SettleDeletes(mid: State, order: seq<TaskId>)
    ensures Settle(mid, order).pendingDeletes == mid.pendingDeletes
  {
  }

  /** So a worker whose lease still runs keeps every task it holds, and what it owns stays as it is. */
  lemma LiveWorkersKeepTheirs(s: State, now: int, retried: seq<TaskId>, order: seq<TaskId>, s': State, n: NodeId)
    requires Inv(s) && s' == ExpireWorkers(s, now, retried, order)
    requires IsOrder(retried, Retried(s, HeldBy(s, Expired(s, now))))
    requires n in s.workers && now < s.workers[n].leaseDeadline
    ensures forall t :: t in Held(s.tasks, n) ==> t in s'.tasks && s'.tasks[t] == s.tasks[t]
    ensures forall o :: o in s.objects && s.objects[o].state == Available && s.objects[o].owner == Some(n) ==>
      o in s'.objects && s'.objects[o] == s.objects[o]
  {
    hide Conserved, QueueMatches, LineageMatches;
    ExpireEffect(s, now, retried, order, s');
    forall t | t in Held(s.tasks, n) ensures t in s'.tasks && s'.tasks[t] == s.tasks[t] {
      assert TasksAfter(s, now)[t] == s.tasks[t];
    }
    forall o | o in s.objects && s.objects[o].state == Available && s.objects[o].owner == Some(n)
      ensures o in s'.objects && s'.objects[o] == s.objects[o]
    {
      assert o in ObjectsAfter(s, now).Keys;
      AvailableIsNotPending(s, now, s', o);
    }
  }

  lemma AvailableIsNotPending(s: State, now: int, s': State, o: ObjectId)
    requires OutputsMatch(s) && HoldersMatch(s) && o in s.objects && s.objects[o].state == Available
    ensures !ProducerEnds(s, now, o, true) && !ProducerEnds(s, now, o, false)
    ensures !LosesProducer(TasksAfter(s, now), s', o)
  {
  }

  // ---------------------------------------------------------------- workers from step to step

  /** The call is granted and renews the lease of node `n`. */
  predicate Renews(s: State, a: Action, n: NodeId)
  {
    || (a.DoRegister? && a.r.node == n && Register(s, a.r, a.addrOk, a.session, a.now, a.leaseMs).reply.Ok?)
    || (a.DoHeartbeat? && a.i.node == n && Heartbeat(s, a.i, a.now, a.leaseMs).reply.Ok?)
  }

  /** The call is granted and drains node `n`. */
  predicate Drains(s: State, a: Action, n: NodeId)
  {
    a.DoDrain? && a.i.node == n && Drain(s, a.i).reply.Ok?
  }

  /** The worker is the same but for what it has free, and not overdrawn by this step. */
  predicate SameTerms(w: Worker, w': Worker)
  {
    w' == w.(available := w'.available, freeSlots := w'.freeSlots) && (0 <= w.freeSlots ==> 0 <= w'.freeSlots)
  }

  ghost predicate WorkersStay(s: State, s': State)
  {
    s'.workers.Keys == s.workers.Keys && forall n :: n in s.workers ==> SameTerms(s.workers[n], s'.workers[n])
  }

  lemma HandBackStays(s: State, n: NodeId, resources: ResourceSet, s': State)
    requires CanGiveBack(s, n, resources) && s'.workers == GiveBack(s, n, resources).workers
    ensures WorkersStay(s, s')
  {
  }

  lemma SameWorkersStay(s: State, s': State)
    requires s'.workers == s.workers
    ensures WorkersStay(s, s')
  {
  }

  lemma ReportWorkers(s: State, h: Bytes -> Digest, a: Action, s': State)
    requires FromHolder(a) && s' == Next(s, h, a)
    ensures WorkersStay(s, s')
  {
    hide Started, Complete, Fail, AckCancel, WorkersStay;
    match a
    case DoStarted(i, f) => StartedWorkers(s, i, f);
    case DoComplete(i, r, order) => CompleteWorkers(s, h, i, r, order);
    case DoFail(i, f, message, kind, now, order) => FailWorkers(s, i, f, message, kind, now, order);
    case DoAckCancel(i, f, order) => AckWorkers(s, i, f, order);
  }

  lemma StartedWorkers(s: State, i: WorkerIdentity, f: TaskFence)
    ensures WorkersStay(s, Started(s, i, f).state)
  {
  }

  lemma CompleteWorkers(s: State, h: Bytes -> Digest, i: WorkerIdentity, r: TaskCompletion, order: seq<TaskId>)
    ensures WorkersStay(s, Complete(s, h, i, r, order).state)
  {
    hide Settle, WorkersStay, GiveBack;
    var s' := Complete(s, h, i, r, order).state;
    if CompleteVerdict(s, h, i, r).Apply? {
      SettleWorkers(CompleteMid(s, i, r), order);
      HandBackStays(s, i.node, s.tasks[r.fence.task].resources, s');
    } else {
      SameWorkersStay(s, s');
    }
  }

  lemma FailWorkers(s: State, i: WorkerIdentity, f: TaskFence, message: string, kind: FailureClass, now: int,
                    order: seq<TaskId>)
    ensures WorkersStay(s, Fail(s, i, f, message, kind, now, order).state)
  {
    hide Settle, WorkersStay, GiveBack, RetryBackoff;
    var s' := Fail(s, i, f, message, kind, now, order).state;
    if FailVerdict(s, i, f).Apply? {
      SettleWorkers(FailMid(s, i, f, message, kind, now), order);
      HandBackStays(s, i.node, s.tasks[f.task].resources, s');
    } else {
      SameWorkersStay(s, s');
    }
  }

  lemma AckWorkers(s: State, i: WorkerIdentity, f: TaskFence, order: seq<TaskId>)
    ensures WorkersStay(s, AckCancel(s, i, f, order).state)
  {
    hide Settle, WorkersStay, GiveBack;
    var s' := AckCancel(s, i, f, order).state;
    if AckVerdict(s, i, f).Apply? {
      SettleWorkers(AckMid(s, i, f), order);
      HandBackStays(s, i.node, s.tasks[f.task].resources, s');
    } else {
      SameWorkersStay(s, s');
    }
  }

  lemma AssignWorkers(s: State, node: NodeId, now: int, lease: LeaseId)
    ensures WorkersStay(s, AssignNext(s, node, now, lease).state)
  {
    if node in s.workers && s.workers[node].state.Alive? && s.workers[node].freeSlots != 0 {
      AssignNextState(s, node, now, lease);
    }
  }

  lemma PollWorkers(s: State, i: WorkerIdentity, now: int, lease: LeaseId)
    ensures WorkersStay(s, PollState(s, i, now, lease))
  {
    hide AssignNext;
    AssignWorkers(TakeDeletes(s, i.node).0, i.node, now, lease);
  }

  lemma ClientWorkers(s: State, h: Bytes -> Digest, a: Action, s': State)
    requires FromClient(a) && s' == Next(s, h, a)
    ensures s'.workers == s.workers
  {
    hide Settle, SubmitCheck;
    if a.DoCancel? && CancelVerdict(s, a.task).Apply? && s.tasks[a.task].holder.None? {
      SettleWorkers(CancelMid(s, a.task), a.order);
    }
  }

  lemma {:induction false} ReleaseAllWorkers(s: State, order: seq<ObjectId>)
    ensures ReleaseAll(s, order).0.workers == s.workers
    decreases |order|
  {
    if order != [] {
      ReleaseAllWorkers(s, order[..|order| - 1]);
    }
  }

  /** A call that does not renew a worker's lease leaves its lease and its terms alone; an expiry removes it exactly
      when the lease has run out, and only draining takes it out of service. */
  lemma WorkerStep(s: State, h: Bytes -> Digest, a: Action, s': State, n: NodeId)
    requires Inv(s) && Legal(s, h, a) && s' == Next(s, h, a) && !Renews(s, a, n)
    ensures n in s'.workers <==> n in s.workers && (a.DoExpire? ==> a.now < s.workers[n].leaseDeadline)
    ensures n in s'.workers ==>
      SameTerms(if Drains(s, a, n) then s.workers[n].(state := Draining) else s.workers[n], s'.workers[n])
  {
    hide Legal, Next, OutputsMatch, HoldersMatch, Conserved, QueueMatches, LineageMatches, ObjectsMatch;
    if FromHolder(a) {
      ReportWorkers(s, h, a, s');
    } else if FromClient(a) {
      ClientWorkers(s, h, a, s');
    } else if a.DoAssign? || a.DoPoll? {
      SchedulingWorkers(s, h, a, s');
    } else {
      TableStep(s, h, a, s', n);
    }
  }

  lemma SchedulingWorkers(s: State, h: Bytes -> Digest, a: Action, s': State)
    requires (a.DoAssign? || a.DoPoll?) && s' == Next(s, h, a)
    ensures WorkersStay(s, s')
  {
    hide AssignNext, PollState;
    match a
    case DoAssign(node, now, lease) => AssignWorkers(s, node, now, lease);
    case DoPoll(i, now, lease) => PollWorkers(s, i, now, lease);
  }

  lemma TableStep(s: State, h: Bytes -> Digest, a: Action, s': State, n: NodeId)
    requires WorkersMatch(s) && s' == Next(s, h, a) && !Renews(s, a, n)
    requires !FromHolder(a) && !FromClient(a) && !a.DoAssign? && !a.DoPoll?
    ensures n in s'.workers <==> n in s.workers && (a.DoExpire? ==> a.now < s.workers[n].leaseDeadline)
    ensures n in s'.workers ==>
      SameTerms(if Drains(s, a, n) then s.workers[n].(state := Draining) else s.workers[n], s'.workers[n])
  {
    hide Register, Heartbeat, ExpireWorkers, Reap, Drain, WorkersMatch;
    match a
    case DoRegister(r, addrOk, session, now, leaseMs) => OtherRegisters(s, r, addrOk, session, now, leaseMs, n);
    case DoHeartbeat(i, now, leaseMs) => OtherHeartbeats(s, i, now, leaseMs, n);
    case DoExpire(now, retried, order) => ExpireWorkersEffect(s, now, retried, order, s');
    case DoReap(now, due) => ReapWorkers(s, now, due);
    case DoDrain(i) => DrainStep(s, i, n);
    case DoTakeDeletes(node) =>
  }

  lemma DrainStep(s: State, i: WorkerIdentity, n: NodeId)
    ensures var out := Drain(s, i);
      && (n in out.state.workers <==> n in s.workers)
      && (n in s.workers ==>
            out.state.workers[n] == if i.node == n && out.reply.Ok? then s.workers[n].(state := Draining)
                                    else s.workers[n])
  {
  }

  lemma ReapWorkers(s: State, now: int, due: seq<ObjectId>)
    ensures Reap(s, now, due).0.workers == s.workers
  {
    ReleaseAllWorkers(Stamp(s, now), due);
  }

  lemma OtherRegisters(s: State, r: RegisterWorker, addrOk: bool, session: SessionId, now: int, leaseMs: int, n: NodeId)
    ensures var out := Register(s, r, addrOk, session, now, leaseMs);
      r.node != n || out.reply.Err? ==>
        (n in out.state.workers <==> n in s.workers) && (n in s.workers ==> out.state.workers[n] == s.workers[n])
  {
  }

  lemma OtherHeartbeats(s: State, i: WorkerIdentity, now: int, leaseMs: int, n: NodeId)
    ensures var out := Heartbeat(s, i, now, leaseMs);
      i.node != n || out.reply.Err? ==>
        (n in out.state.workers <==> n in s.workers) && (n in s.workers ==> out.state.workers[n] == s.workers[n])
  {
  }

  lemma Registers(s: State, r: RegisterWorker, addrOk: bool, session: SessionId, now: int, leaseMs: int)
    ensures var out := Register(s, r, addrOk, session, now, leaseMs);
      out.reply.Ok? ==> r.node in out.state.workers && out.state.workers[r.node].leaseDeadline == SatAdd(now, leaseMs)
  {
  }

  lemma RenewalStep(s: State, h: Bytes -> Digest, a: Action, s': State, n: NodeId)
    requires Renews(s, a, n) && s' == Next(s, h, a)
    ensures n in s'.workers && s'.workers[n].leaseDeadline == SatAdd(a.now, a.leaseMs)
  {
    hide Register;
    if a.DoRegister? {
      Registers(s, a.r, a.addrOk, a.session, a.now, a.leaseMs);
    }
  }

  // ---------------------------------------------------------------- runs

  /** A worker whose lease was last renewed at time `T` for `L` milliseconds is registered exactly as long as every
      expiry since has come before `T + L`. */
  lemma {:induction false} LeaseDecides(h: Bytes -> Digest, states: seq<State>, actions: seq<Action>, i: nat, j: nat,
                                        n: NodeId)
    requires IsRun(h, states, actions) && i < j < |states| && Renews(states[i], actions[i], n)
    requires forall k :: i < k < j ==> !Renews(states[k], actions[k], n)
    ensures n in states[j].workers <==>
      forall k :: i < k < j && actions[k].DoExpire? ==> actions[k].now < SatAdd(actions[i].now, actions[i].leaseMs)
    ensures n in states[j].workers ==> states[j].workers[n].leaseDeadline == SatAdd(actions[i].now, actions[i].leaseMs)
    decreases j
  {
    hide Inv, Legal, Next, Renews;
    assert StepAt(h, states, actions, j - 1);
    if j == i + 1 {
      RenewalStep(states[i], h, actions[i], states[j], n);
    } else {
      LeaseDecides(h, states, actions, i, j - 1, n);
      RunInv(h, states, actions, j - 1);
      WorkerStep(states[j - 1], h, actions[j - 1], states[j], n);
    }
  }
}
