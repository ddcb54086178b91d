/** Releasing objects: what a release removes, and that the worker that owned the bytes is told to delete them. */
module Deletes {
  import opened Types
  import opened Model
  import opened Invariants
  import opened Scheduling
  import opened Reclaim
  import opened Runs
  import opened Evolution
  import opened Leases
  import opened Tables
  import Polling

  /** The deletes queued for a worker. */
  function Queue(s: State, n: NodeId): seq<ObjectId>
  {
    if n in s.pendingDeletes then s.pendingDeletes[n] else []
  }

  /** Some unfinished task has the object among its arguments. */
  predicate Wanted(s: State, id: ObjectId)
  {
    exists t :: t in s.tasks && ObjectArg(id) in s.tasks[t].args
      && !s.tasks[t].state.Succeeded? && !s.tasks[t].state.Failed? && !s.tasks[t].state.Cancelled?
  }

  lemma WantedMeans(s: State, id: ObjectId)
    ensures InUse(s, id) <==> Wanted(s, id)
  {
    if InUse(s, id) {
      var t :| t in s.tasks && !s.tasks[t].state.Terminal() && id in Deps(s.tasks[t]);
      var arg :| arg in s.tasks[t].args && arg.ObjectArg? && arg.id == id;
      assert arg == ObjectArg(id);
    }
    if Wanted(s, id) {
      var t :| t in s.tasks && ObjectArg(id) in s.tasks[t].args
        && !s.tasks[t].state.Succeeded? && !s.tasks[t].state.Failed? && !s.tasks[t].state.Cancelled?;
      assert ObjectArg(id).id in Deps(s.tasks[t]);
    }
  }

  /** A release is refused exactly while the object is to be produced or wanted. Otherwise exactly the object and its
      producer go, and a registered owner gets one more delete at the end of its queue. */
  lemma ReleaseEffect(s: State, id: ObjectId, n: NodeId)
    ensures var out := ReleaseObject(s, id);
      var s' := out.state;
      if id !in s.objects then out == Outcome(s, Ok(()))
      else if s.objects[id].state == Reserved || Wanted(s, id) then out == Outcome(s, Err(ObjectInUse(id)))
      else
        && out.reply == Ok(()) && s'.objects == s.objects - {id} && s'.workers == s.workers
        && (forall t :: t in s'.tasks <==> t in s.tasks && s.tasks[t].output != id)
        && (forall t :: t in s'.tasks ==> s'.tasks[t] == s.tasks[t])
        && Queue(s', n) ==
           if n in s.workers && s.objects[id].owner == Some(n) then Queue(s, n) + [id] else Queue(s, n)
  {
    WantedMeans(s, id);
  }

  /** When the reaper first finds the task finished; its own clock if that is now. */
  function FoundAt(task: Task, now: int): int
  {
    if task.terminalSince == 0 then now else task.terminalSince
  }

  predicate Finished(task: Task)
  {
    task.state.Succeeded? || task.state.Failed? || task.state.Cancelled?
  }

  lemma DueMeans(s: State, now: int, t: TaskId)
    requires t in s.tasks
    ensures t in DueTasks(Stamp(s, now), now) <==>
      Finished(s.tasks[t]) && Max(now - FoundAt(s.tasks[t], now), 0) >= 600_000 && !Wanted(s, s.tasks[t].output)
  {
    hide InUse, Wanted;
    StampInUse(s, now, s.tasks[t].output);
    WantedMeans(s, s.tasks[t].output);
  }

  lemma DueOutputsMean(s: State, now: int, t: TaskId)
    requires OutputsMatch(s) && t in s.tasks
    ensures s.tasks[t].output in DueOutputs(Stamp(s, now), now) <==> t in DueTasks(Stamp(s, now), now)
  {
    var stamped := Stamp(s, now);
    hide DueTasks;
    if s.tasks[t].output in DueOutputs(stamped, now) {
      var u :| u in DueTasks(stamped, now) && u in stamped.tasks && stamped.tasks[u].output == s.tasks[t].output;
      assert s.tasks[u].output == s.tasks[t].output;
    }
  }

  /** The reaper drops exactly the finished tasks it found at least ten minutes ago whose output nothing wants, each
      with its output, and counts them. It stamps the finished tasks it leaves and changes no other task. */
  lemma ReapEffect(s: State, now: int, order: seq<ObjectId>, t: TaskId)
    requires OutputsMatch(s) && ObjectsMatch(s) && IsOrder(order, DueOutputs(Stamp(s, now), now)) && t in s.tasks
    ensures var (s', n) := Reap(s, now, order);
      var task := s.tasks[t];
      && n == |s.tasks.Keys - s'.tasks.Keys|
      && (t !in s'.tasks <==>
            Finished(task) && Max(now - FoundAt(task, now), 0) >= 600_000 && !Wanted(s, task.output))
      && (t !in s'.tasks <==> task.output !in s'.objects)
      && (t in s'.tasks ==>
            s'.tasks[t] == if Finished(task) then task.(terminalSince := FoundAt(task, now)) else task)
  {
    ReapExact(s, now, order);
    DueMeans(s, now, t);
    DueOutputsMean(s, now, t);
    hide Reap, Wanted, DueTasks, DueOutputs, ObjectsMatch;
    var due := DueTasks(Stamp(s, now), now);
    assert due <= s.tasks.Keys by {
      DueAreTasks(s, now);
    }
    assert s.tasks.Keys - Reap(s, now, order).0.tasks.Keys == due;
  }

  lemma DueAreTasks(s: State, now: int)
    ensures DueTasks(Stamp(s, now), now) <= s.tasks.Keys
  {
  }

  // ---------------------------------------------------------------- the queue from step to step

  /** The queue grows at the end, by what the worker owned and `s'` no longer has, and by nothing else. */
  ghost predicate QueueGrows(s: State, s': State, n: NodeId)
  {
    && Queue(s, n) <= Queue(s', n)
    && (forall o :: o in s.objects && s.objects[o].owner == Some(n) && o !in s'.objects ==> o in Queue(s', n))
    && (forall o :: o in Queue(s', n) ==>
          o in Queue(s, n) || (o in s.objects && s.objects[o].owner == Some(n) && o !in s'.objects))
  }

  lemma {:induction false} ReleaseAllQueues(s: State, order: seq<ObjectId>, n: NodeId)
    requires n in s.workers
    ensures var s' := ReleaseAll(s, order).0;
      && QueueGrows(s, s', n) && s'.workers == s.workers
      && forall o :: o in s'.objects ==> o in s.objects && s'.objects[o] == s.objects[o]
    decreases |order|
  {
    if order != [] {
      var init, last := order[..|order| - 1], order[|order| - 1];
      ReleaseAllQueues(s, init, n);
      ReleaseEffect(ReleaseAll(s, init).0, last, n);
      hide ReleaseObject, Wanted;
    }
  }

  /** The poll is answered with this delete and nothing else. */
  ghost predicate SendsDelete(s: State, a: Action, n: NodeId, o: ObjectId)
  {
    && a.DoPoll? && a.i.node == n
    && forall reply :: PollAnswers(s, a.i, a.now, a.lease, reply) <==> reply == DeleteObject(o)
  }

  /** A worker that stays registered has its deletes sent in order, one per poll; otherwise they only get more. */
  ghost predicate QueueMoves(s: State, a: Action, s': State, n: NodeId)
  {
    if a.DoPoll? && a.i.node == n && Queue(s, n) != [] then
      SendsDelete(s, a, n, Queue(s, n)[0]) && Queue(s', n) == Queue(s, n)[1..] && s'.objects == s.objects
    else if a.DoTakeDeletes? && a.node == n then Queue(s', n) == [] && s'.objects == s.objects
    else QueueGrows(s, s', n)
  }

  lemma SameQueueMoves(s: State, a: Action, s': State, n: NodeId)
    requires !(a.DoPoll? && a.i.node == n && Queue(s, n) != []) && !(a.DoTakeDeletes? && a.node == n)
    requires Queue(s', n) == Queue(s, n) && s.objects.Keys <= s'.objects.Keys
    ensures QueueMoves(s, a, s', n)
  {
    assert forall o :: o in s.objects ==> o in s'.objects.Keys;
  }

  lemma ReportQueues(s: State, h: Bytes -> Digest, a: Action, s': State)
    requires FromHolder(a) && s' == Next(s, h, a)
    ensures s'.pendingDeletes == s.pendingDeletes
  {
    hide Complete, Fail, AckCancel;
    match a
    case DoComplete(i, report, order) => Polling.CompleteDeletes(s, h, i, report, order);
    case DoFail(i, f, message, kind, now, order) => Polling.FailDeletes(s, i, f, message, kind, now, order);
    case DoAckCancel(i, f, order) => Polling.AckDeletes(s, i, f, order);
    case DoStarted(_, _) =>
  }

  lemma AssignQueues(s: State, node: NodeId, now: int, lease: LeaseId)
    ensures AssignNext(s, node, now, lease).state.pendingDeletes == s.pendingDeletes
  {
    if node in s.workers && s.workers[node].state.Alive? && s.workers[node].freeSlots != 0 {
      AssignNextState(s, node, now, lease);
    }
  }

  lemma PollQueues(s: State, i: WorkerIdentity, now: int, lease: LeaseId, n: NodeId)
    ensures var s' := PollState(s, i, now, lease);
      if i.node == n && Queue(s, n) != [] then Queue(s', n) == Queue(s, n)[1..] && s'.objects == s.objects
      else Queue(s', n) == Queue(s, n)
    ensures i.node == n && Queue(s, n) != [] ==>
      forall reply :: PollAnswers(s, i, now, lease, reply) <==> reply == DeleteObject(Queue(s, n)[0])
  {
    hide AssignNext;
    AssignQueues(TakeDeletes(s, i.node).0, i.node, now, lease);
  }

  lemma RegisterQueues(s: State, r: RegisterWorker, addrOk: bool, session: SessionId, now: int, leaseMs: int)
    ensures Register(s, r, addrOk, session, now, leaseMs).state.pendingDeletes == s.pendingDeletes
  {
  }

  lemma PutQueues(s: State, h: Bytes -> Digest, a: Action, s': State)
    requires (a.DoPut? || a.DoPutMeta?) && s' == Next(s, h, a)
    ensures s'.pendingDeletes == s.pendingDeletes
  {
  }

  lemma SmallQueues(s: State, h: Bytes -> Digest, a: Action, s': State, n: NodeId)
    requires (a.DoHeartbeat? || a.DoDrain? || a.DoTakeDeletes?) && s' == Next(s, h, a)
    ensures if a.DoTakeDeletes? && a.node == n then Queue(s', n) == [] && s'.objects == s.objects
            else Queue(s', n) == Queue(s, n)
  {
  }

  lemma SubmitQueues(s: State, h: Bytes -> Digest, a: Action, s': State)
    requires a.DoSubmit? && s' == Next(s, h, a)
    ensures s'.pendingDeletes == s.pendingDeletes && s.objects.Keys <= s'.objects.Keys
  {
    hide SubmitCheck;
  }

  lemma ReapQueues(s: State, h: Bytes -> Digest, a: Action, s': State, n: NodeId)
    requires a.DoReap? && s' == Next(s, h, a) && n in s.workers
    ensures QueueGrows(s, s', n)
  {
    ReleaseAllQueues(Stamp(s, a.now), a.due, n);
  }

  lemma ReleaseQueues(s: State, h: Bytes -> Digest, a: Action, s': State, n: NodeId)
    requires a.DoRelease? && s' == Next(s, h, a) && n in s.workers
    ensures QueueGrows(s, s', n)
  {
    hide ReleaseObject, Wanted;
    ReleaseEffect(s, a.id, n);
  }

  lemma ExpireQueues(s: State, h: Bytes -> Digest, a: Action, s': State, n: NodeId)
    requires WorkersMatch(s) && a.DoExpire? && s' == Next(s, h, a) && n in s'.workers
    ensures Queue(s', n) == Queue(s, n)
  {
    hide ExpireWorkers;
    ExpireWorkersEffect(s, a.now, a.retried, a.order, s');
  }

  /** Every step moves a registered worker's queue in one of these ways. */
  lemma QueueStep(s: State, h: Bytes -> Digest, a: Action, s': State, n: NodeId)
    requires Inv(s) && s' == Next(s, h, a) && n in s.workers && n in s'.workers
    ensures QueueMoves(s, a, s', n)
  {
    hide Next, QueueGrows, SendsDelete, OutputsMatch, HoldersMatch, Conserved, LineageMatches, QueueMatches,
         ObjectsMatch;
    if a.DoRelease? {
      ReleaseQueues(s, h, a, s', n);
    } else if a.DoReap? {
      ReapQueues(s, h, a, s', n);
    } else if a.DoPoll? && a.i.node == n && Queue(s, n) != [] {
      PollSends(s, h, a, s', n);
    } else if a.DoTakeDeletes? && a.node == n {
      SmallQueues(s, h, a, s', n);
    } else {
      QueueStays(s, h, a, s', n);
      if a.DoSubmit? {
        SubmitQueues(s, h, a, s');
      } else {
        NextStays(s, h, a, s');
      }
      SameQueueMoves(s, a, s', n);
    }
  }

  lemma PollSends(s: State, h: Bytes -> Digest, a: Action, s': State, n: NodeId)
    requires a.DoPoll? && a.i.node == n && Queue(s, n) != [] && s' == Next(s, h, a)
    ensures QueueMoves(s, a, s', n)
  {
    hide PollState, PollAnswers;
    PollQueues(s, a.i, a.now, a.lease, n);
  }

  lemma QueueStays(s: State, h: Bytes -> Digest, a: Action, s': State, n: NodeId)
    requires WorkersMatch(s) && s' == Next(s, h, a) && n in s'.workers && !a.DoRelease? && !a.DoReap?
    requires !(a.DoPoll? && a.i.node == n && Queue(s, n) != []) && !(a.DoTakeDeletes? && a.node == n)
    ensures Queue(s', n) == Queue(s, n)
  {
    hide WorkersMatch, Complete, Fail, AckCancel, Started, Cancel, Submit, Admit, PollState, PollAnswers, AssignNext,
         Register, Heartbeat, Drain, ExpireWorkers, TakeDeletes;
    if FromHolder(a) {
      ReportQueues(s, h, a, s');
    } else {
      match a
      case DoPut(_, _) => PutQueues(s, h, a, s');
      case DoPutMeta(_, _, _, _) => PutQueues(s, h, a, s');
      case DoSubmit(_, _, _, _, _, _) => SubmitQueues(s, h, a, s');
      case DoCancel(t, order) => Polling.CancelDeletes(s, t, order);
      case DoAssign(node, now, lease) => AssignQueues(s, node, now, lease);
      case DoPoll(i, now, lease) => PollQueues(s, i, now, lease, n);
      case DoRegister(r, addrOk, session, now, leaseMs) => RegisterQueues(s, r, addrOk, session, now, leaseMs);
      case DoExpire(_, _, _) => ExpireQueues(s, h, a, s', n);
      case _ => SmallQueues(s, h, a, s', n);
    }
  }

  // ---------------------------------------------------------------- runs

  /** When an object goes whose bytes a worker has, that worker's queue gets the delete. As long as the worker stays
      and takes its deletes by polling, the delete stays queued until some poll of the worker is answered with it. */
  lemma {:induction false} DeleteReachesOwner(h: Bytes -> Digest, states: seq<State>, actions: seq<Action>, i: nat,
                                              j: nat, n: NodeId, o: ObjectId)
    returns (k: nat)
    requires IsRun(h, states, actions) && i < j < |states|
    requires forall m :: i <= m <= j ==> n in states[m].workers
    requires forall m :: i < m < j ==> actions[m] != DoTakeDeletes(n)
    requires o in states[i].objects && states[i].objects[o].owner == Some(n) && o !in states[i + 1].objects
    ensures o in Queue(states[j], n) || (i < k < j && SendsDelete(states[k], actions[k], n, o))
    decreases j
  {
    hide Inv, Legal, Next, SendsDelete;
    RunInv(h, states, actions, j - 1);
    assert StepAt(h, states, actions, j - 1);
    QueueStep(states[j - 1], h, actions[j - 1], states[j], n);
    k := j - 1;
    if i < j - 1 {
      k := DeleteReachesOwner(h, states, actions, i, j - 1, n, o);
      if o in Queue(states[j - 1], n) && o !in Queue(states[j], n) {
        assert o == Queue(states[j - 1], n)[0];
        k := j - 1;
      }
    }
  }

  /** And a worker is told to delete only what it owned and what was since released or reclaimed. */
  lemma {:induction false} DeleteWasReleased(h: Bytes -> Digest, states: seq<State>, actions: seq<Action>, k: nat,
                                             n: NodeId, o: ObjectId)
    returns (i: nat)
    requires IsRun(h, states, actions) && k < |states| && n in states[k].workers && o in Queue(states[k], n)
    ensures i < k && o in states[i].objects && states[i].objects[o].owner == Some(n) && o !in states[i + 1].objects
    ensures forall m :: i <= m <= k ==> n in states[m].workers
    decreases k
  {
    hide Inv, Legal, Next, SendsDelete;
    assert k > 0;
    RunInv(h, states, actions, k - 1);
    Polling.RunDeletes(h, states, actions, k - 1);
    assert StepAt(h, states, actions, k - 1);
    if n !in states[k - 1].workers {
      NewWorkerHasNone(states[k - 1], h, actions[k - 1], states[k], n);
    } else {
      QueueStep(states[k - 1], h, actions[k - 1], states[k], n);
      if o in Queue(states[k - 1], n) {
        i := DeleteWasReleased(h, states, actions, k - 1, n, o);
      } else {
        i := k - 1;
      }
    }
  }

  lemma NewWorkerHasNone(s: State, h: Bytes -> Digest, a: Action, s': State, n: NodeId)
    requires Inv(s) && Legal(s, h, a) && s' == Next(s, h, a) && Polling.DeletesMatch(s) && n !in s.workers
    requires n in s'.workers
    ensures Queue(s', n) == []
  {
    hide Inv, Legal, Register;
    if Renews(s, a, n) && a.DoRegister? {
      RegisterQueues(s, a.r, a.addrOk, a.session, a.now, a.leaseMs);
    } else if !Renews(s, a, n) {
      WorkerStep(s, h, a, s', n);
    }
  }
}
