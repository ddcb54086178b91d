/** What a worker report or a cancellation does, told from the call and the tables alone. */
module Reports {
  import opened Types
  import opened Resources
  import opened Model
  import opened Invariants
  import opened Steps
  import opened Reconciliation
  import Histories

  // ---------------------------------------------------------------- who may report

  /** The caller is the worker that holds the task, under this lease and attempt. */
  predicate HoldsNow(s: State, i: WorkerIdentity, f: TaskFence)
  {
    && i.coordinatorEpoch == s.epoch && f.task in s.tasks
    && s.tasks[f.task].holder == Some(Assignment(i.node, i.workerEpoch, i.session, f.lease))
    && s.tasks[f.task].attempt == f.attempt
  }

  lemma FenceMeansHolds(s: State, i: WorkerIdentity, f: TaskFence)
    requires HoldersMatch(s) && WorkersMatch(s)
    ensures FenceOk(s, i, f) <==> HoldsNow(s, i, f)
  {
  }

  /** Worker `n` has one more free slot and the demand of task `t` back; workers are otherwise as before. */
  ghost predicate HandsBack(s: State, s': State, n: NodeId, t: TaskId)
  {
    && t in s.tasks && n in s.workers && s'.workers.Keys == s.workers.Keys
    && (forall m :: m in s.workers && m != n ==> s'.workers[m] == s.workers[m])
    && s'.workers[n] == s.workers[n].(freeSlots := s.workers[n].freeSlots + 1, available := s'.workers[n].available)
    && forall name :: Get(s'.workers[n].available, name)
                      == Get(s.workers[n].available, name) + Get(s.tasks[t].resources, name)
  }

  lemma GiveBackHandsBack(s: State, n: NodeId, t: TaskId, s': State)
    requires t in s.tasks && CanGiveBack(s, n, s.tasks[t].resources)
    requires s'.workers == GiveBack(s, n, s.tasks[t].resources).workers
    ensures HandsBack(s, s', n, t)
  {
    var w := s.workers[n];
    forall name ensures Get(Plus(w.available, s.tasks[t].resources, w.total), name)
                        == Get(w.available, name) + Get(s.tasks[t].resources, name) {
      PlusGet(w.available, s.tasks[t].resources, w.total, name);
    }
  }

  /** Task `t` becomes `task`, its output's record becomes `record`, and then the waiting tasks are judged. */
  ghost predicate EndsAs(s: State, s': State, t: TaskId, task: Task, record: ObjectRecord)
  {
    Reconciled(s.tasks[t := task], s.objects[task.output := record], s')
  }

  // ---------------------------------------------------------------- start

  /** A start report makes exactly the holder's assigned task run; anyone may repeat it while it runs. */
  lemma StartedEffect(s: State, i: WorkerIdentity, f: TaskFence)
    requires Inv(s)
    ensures var out := Started(s, i, f);
      if f.task !in s.tasks then out == Outcome(s, Err(TaskNotFound(f.task)))
      else if s.tasks[f.task].state == Running then out == Outcome(s, Ok(()))
      else if !HoldsNow(s, i, f) then out == Outcome(s, Err(StaleFence))
      else if s.tasks[f.task].state == CancelRequested then out.state == s && out.reply.Err?
      else
        && s.tasks[f.task].state == Assigned && out.reply == Ok(())
        && out.state == s.(tasks := s.tasks[f.task := s.tasks[f.task].(state := Running)], revision := s.revision + 1)
  {
    FenceMeansHolds(s, i, f);
  }

  // ---------------------------------------------------------------- completion

  /** The report describes the task's output as the operation, the worker and the digest demand. */
  predicate Fits(s: State, h: Bytes -> Digest, i: WorkerIdentity, r: TaskCompletion, task: Task)
  {
    && (r.bytes.Some? ==> |r.bytes.value| == r.size && h(r.bytes.value) == r.checksum)
    && r.output == task.output && r.size <= 8_323_072
    && task.operation in s.operations && r.codec == s.operations[task.operation].outputCodec
    && i.node in s.workers && r.location == s.workers[i.node].addr
  }

  /** A completion by the holder that fits makes the task succeed and files the output exactly as reported, owned by
      the worker. A repeat is granted exactly when it agrees with what is filed. Nothing else has an effect. */
  lemma CompleteEffect(s: State, h: Bytes -> Digest, i: WorkerIdentity, r: TaskCompletion, order: seq<TaskId>)
    requires Inv(s)
    ensures var out := Complete(s, h, i, r, order);
      var t := r.fence.task;
      if t !in s.tasks then out == Outcome(s, Err(TaskNotFound(t)))
      else if s.tasks[t].state == Succeeded then
        var o := s.objects[s.tasks[t].output];
        out == Outcome(s, if o.state == Available && o.checksum == Some(r.checksum) && o.size == Some(r.size)
                          then Ok(()) else Err(ObjectConflict(s.tasks[t].output)))
      else if !HoldsNow(s, i, r.fence) then out == Outcome(s, Err(StaleFence))
      else if s.tasks[t].state == CancelRequested then out.state == s && out.reply.Err?
      else if !Fits(s, h, i, r, s.tasks[t]) then out == Outcome(s, Err(ObjectConflict(s.tasks[t].output)))
      else
        && out.reply == Ok(()) && HandsBack(s, out.state, i.node, t)
        && EndsAs(s, out.state, t, s.tasks[t].(state := Succeeded, holder := None),
                  ObjectRecord(Available, Some(r.codec), r.bytes, Some(r.size), Some(r.checksum), Some(r.location),
                               Some(i.node)))
  {
    hide Conserved, QueueMatches, LineageMatches, Settle, Settled, Reconciled;
    FenceMeansHolds(s, i, r.fence);
    var t := r.fence.task;
    if HoldsNow(s, i, r.fence) {
      HeldCanGiveBack(s, i.node, t);
      if CompleteVerdict(s, h, i, r).Apply? {
        var mid := CompleteMid(s, i, r);
        CompleteMidKeeps(s, h, i, r);
        SettleReconciles(mid, order, Settle(mid, order));
        SettleWorkers(mid, order);
        GiveBackHandsBack(s, i.node, t, mid);
        SameReconciled(mid, Settle(mid, order), Complete(s, h, i, r, order).state);
      }
    }
  }

  lemma SettleWorkers(mid: State, order: seq<TaskId>)
    ensures Settle(mid, order).workers == mid.workers
  {
  }

  lemma SameReconciled(mid: State, a: State, b: State)
    requires Reconciled(mid.tasks, mid.objects, a) && b.tasks == a.tasks && b.objects == a.objects
    ensures Reconciled(mid.tasks, mid.objects, b)
  {
    forall o | o in mid.objects ensures LosesProducer(mid.tasks, a, o) <==> LosesProducer(mid.tasks, b, o) {
      assert forall t :: GivenUp(mid.tasks, a, t) <==> GivenUp(mid.tasks, b, t);
    }
  }

  // ---------------------------------------------------------------- failure

  /** The delay before the attempt after number `n`. */
  function BackoffAfter(n: int): int
  {
    Min(100 * Pow2(if n >= 1 then n - 1 else 0), 30_000)
  }

  lemma BackoffIs(n: nat)
    requires n >= 1
    ensures RetryBackoff(n) == BackoffAfter(n)
  {
    Histories.BackoffIsCappedExponential(n);
  }

  /** A failure report by the holder queues the task again exactly when it is transient and attempts are left: at
      the back, not before the backoff has passed. Otherwise the task fails for good with the worker's message, its
      output is marked and its dependants are judged. The answer says which. Nothing else has an effect. */
  lemma FailEffect(s: State, i: WorkerIdentity, f: TaskFence, message: string, kind: FailureClass, now: int,
                   order: seq<TaskId>)
    requires Inv(s)
    ensures var out := Fail(s, i, f, message, kind, now, order);
      if f.task !in s.tasks then out == Outcome(s, Err(TaskNotFound(f.task)))
      else
        var task := s.tasks[f.task];
        if task.state.Succeeded? || task.state.Failed? || task.state.Cancelled? then out == Outcome(s, Ok(false))
        else if !HoldsNow(s, i, f) then out == Outcome(s, Err(StaleFence))
        else if task.state == CancelRequested then out.state == s && out.reply.Err?
        else
          && task.attempt >= 1 && HandsBack(s, out.state, i.node, f.task)
          && if kind == Transient && task.attempt < task.maxAttempts then
               && out.reply == Ok(false) && out.state.objects == s.objects
               && out.state.tasks == s.tasks[f.task := task.(state := Runnable, holder := None,
                                                             notBefore := SatAdd(now, BackoffAfter(task.attempt)))]
               && out.state.runnable == s.runnable + [f.task]
             else
               && out.reply == Ok(true)
               && EndsAs(s, out.state, f.task, task.(state := TaskState.Failed(message), holder := None),
                         s.objects[task.output].(state := ProducerFailed))
  {
    hide Conserved, QueueMatches, LineageMatches, Settle, Settled, HandsBack, EndsAs, FailMid, BackoffAfter;
    FenceMeansHolds(s, i, f);
    if HoldsNow(s, i, f) {
      HeldCanGiveBack(s, i.node, f.task);
      if FailVerdict(s, i, f).Apply? {
        if kind == Transient && s.tasks[f.task].attempt < s.tasks[f.task].maxAttempts {
          FailRetries(s, i, f, message, kind, now, order);
        } else {
          FailEnds(s, i, f, message, kind, now, order);
        }
      }
    }
  }

  lemma FailRetries(s: State, i: WorkerIdentity, f: TaskFence, message: string, kind: FailureClass, now: int,
                    order: seq<TaskId>)
    requires Inv(s) && FailVerdict(s, i, f).Apply?
    requires kind == Transient && s.tasks[f.task].attempt < s.tasks[f.task].maxAttempts
    ensures var out := Fail(s, i, f, message, kind, now, order);
      var task := s.tasks[f.task];
      && task.attempt >= 1 && HandsBack(s, out.state, i.node, f.task)
      && out.reply == Ok(false) && out.state.objects == s.objects && out.state.runnable == s.runnable + [f.task]
      && out.state.tasks == s.tasks[f.task := task.(state := Runnable, holder := None,
                                                    notBefore := SatAdd(now, BackoffAfter(task.attempt)))]
  {
    hide Conserved, QueueMatches, LineageMatches, Settle, Settled, RetryBackoff, BackoffAfter, HandsBack;
    FenceMeansHeld(s, i, f);
    BackoffIs(s.tasks[f.task].attempt);
    GiveBackHandsBack(s, i.node, f.task, Fail(s, i, f, message, kind, now, order).state);
  }

  lemma FailEnds(s: State, i: WorkerIdentity, f: TaskFence, message: string, kind: FailureClass, now: int,
                 order: seq<TaskId>)
    requires Inv(s) && FailVerdict(s, i, f).Apply?
    requires kind == Permanent || s.tasks[f.task].attempt >= s.tasks[f.task].maxAttempts
    ensures var out := Fail(s, i, f, message, kind, now, order);
      var task := s.tasks[f.task];
      && task.attempt >= 1 && HandsBack(s, out.state, i.node, f.task) && out.reply == Ok(true)
      && EndsAs(s, out.state, f.task, task.(state := TaskState.Failed(message), holder := None),
                s.objects[task.output].(state := ProducerFailed))
  {
    hide Conserved, QueueMatches, LineageMatches, Settle, Settled, Reconciled, RetryBackoff;
    var mid := FailMid(s, i, f, message, kind, now);
    FenceMeansHeld(s, i, f);
    FailMidKeeps(s, i, f, message, kind, now);
    GiveBackHandsBack(s, i.node, f.task, mid);
    SettleReconciles(mid, order, Settle(mid, order));
    SettleWorkers(mid, order);
    SameReconciled(mid, Settle(mid, order), Fail(s, i, f, message, kind, now, order).state);
  }

  // ---------------------------------------------------------------- cancellation

  /** Only the holder can acknowledge a cancellation that was asked for; it then takes effect. */
  lemma AckCancelEffect(s: State, i: WorkerIdentity, f: TaskFence, order: seq<TaskId>)
    requires Inv(s)
    ensures var out := AckCancel(s, i, f, order);
      if f.task !in s.tasks then out == Outcome(s, Err(TaskNotFound(f.task)))
      else if s.tasks[f.task].state == TaskState.Cancelled then out == Outcome(s, Ok(()))
      else if !HoldsNow(s, i, f) then out == Outcome(s, Err(StaleFence))
      else if s.tasks[f.task].state != CancelRequested then out.state == s && out.reply.Err?
      else
        && out.reply == Ok(()) && HandsBack(s, out.state, i.node, f.task)
        && EndsAs(s, out.state, f.task, s.tasks[f.task].(state := TaskState.Cancelled, holder := None),
                  s.objects[s.tasks[f.task].output].(state := ProducerCancelled))
  {
    hide Conserved, QueueMatches, LineageMatches, Settle, Settled, Reconciled;
    FenceMeansHolds(s, i, f);
    if HoldsNow(s, i, f) {
      HeldCanGiveBack(s, i.node, f.task);
      if AckVerdict(s, i, f).Apply? {
        var mid := AckMid(s, i, f);
        AckMidKeeps(s, i, f);
        SettleReconciles(mid, order, Settle(mid, order));
        SettleWorkers(mid, order);
        GiveBackHandsBack(s, i.node, f.task, mid);
        SameReconciled(mid, Settle(mid, order), AckCancel(s, i, f, order).state);
      }
    }
  }

  /** Cancelling a task that no worker has ends it and judges its dependants; a worker that has it is only asked to
      stop. Asking twice changes nothing, and a finished task is not cancelled. */
  lemma CancelEffect(s: State, t: TaskId, order: seq<TaskId>)
    requires Inv(s)
    ensures var out := Cancel(s, t, order);
      if t !in s.tasks then out == Outcome(s, Err(TaskNotFound(t)))
      else match s.tasks[t].state
        case Waiting | Runnable =>
          && out.reply == Ok(()) && out.state.workers == s.workers
          && EndsAs(s, out.state, t, s.tasks[t].(state := TaskState.Cancelled),
                    s.objects[s.tasks[t].output].(state := ProducerCancelled))
        case Assigned | Running =>
          && out.reply == Ok(()) && out.state.workers == s.workers && out.state.objects == s.objects
          && out.state.tasks == s.tasks[t := s.tasks[t].(state := CancelRequested)]
        case CancelRequested => out == Outcome(s, Ok(()))
        case _ => out.state == s && out.reply.Err?
  {
    hide Conserved, QueueMatches, LineageMatches, Settle, Settled, Reconciled;
    if CancelVerdict(s, t).Apply? && s.tasks[t].holder.None? {
      var mid := CancelMid(s, t);
      CancelMidKeeps(s, t);
      SettleReconciles(mid, order, Settle(mid, order));
      SettleWorkers(mid, order);
      SameReconciled(mid, Settle(mid, order), Cancel(s, t, order).state);
    }
  }
}
