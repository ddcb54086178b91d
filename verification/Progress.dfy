/** No dependency deadlock, no failing bookkeeping, and errors that change nothing. */
module Progress {
  import opened Types
  import opened Model
  import opened Invariants
  import opened Steps
  import opened Scheduling
  import opened Runs

  // ---------------------------------------------------------------- waiting is always for something live

  /** `chain` starts at `t` and goes from each waiting task to the producer of one of its pending inputs. */
  ghost predicate WaitChain(s: State, t: TaskId, chain: seq<TaskId>)
  {
    && |chain| > 0 && chain[0] == t
    && (forall i :: 0 <= i < |chain| ==> chain[i] in s.tasks)
    && (forall i :: 0 <= i < |chain| - 1 ==> chain[i] in s.waiting && PendingOn(s, chain[i], chain[i + 1]))
  }

  /** Task `t` waits for the reserved output of task `u`. */
  predicate PendingOn(s: State, t: TaskId, u: TaskId)
  {
    && Feeds(s, u, t)
    && s.tasks[u].output in s.objects && s.objects[s.tasks[u].output].state.Reserved?
  }

  /** Unfinished and not itself waiting: a worker runs it, or any worker that fits may. */
  predicate Active(s: State, t: TaskId)
  {
    t in s.tasks && (s.tasks[t].state.Runnable? || s.tasks[t].state.InFlight())
  }

  /** A waiting task's inputs are all present and pending or available, and at least one is pending. */
  lemma WaitingForSomething(s: State, t: TaskId)
    requires Inv(s) && t in s.waiting
    ensures t in s.tasks
    ensures forall o :: o in Deps(s.tasks[t]) ==>
      o in s.objects && (s.objects[o].state.Reserved? || s.objects[o].state.Available?)
    ensures exists o :: o in Deps(s.tasks[t]) && o in s.objects && s.objects[o].state.Reserved?
  {
    assert !HasBroken(s, t) && !AllAvailable(s, t);
    var o :| o in Deps(s.tasks[t]) && !IsAvailable(s, o);
    assert !Broken(s, o);
  }

  /** ... whose producer is in the table, unfinished and submitted earlier. */
  lemma PendingProducer(s: State, t: TaskId) returns (u: TaskId)
    requires Inv(s) && t in s.waiting
    ensures t in s.tasks && PendingOn(s, t, u)
    ensures u in s.tasks && !s.tasks[u].state.Terminal() && s.born[u] < s.born[t]
  {
    WaitingForSomething(s, t);
    var o :| o in Deps(s.tasks[t]) && o in s.objects && s.objects[o].state.Reserved?;
    assert o in OutputsOf(s.tasks, s.tasks.Keys);
    u :| u in s.tasks && s.tasks[u].output == o;
    assert Feeds(s, u, t);
  }

  /** Following pending inputs from any waiting task leads to a task that is runnable or in a worker's hands. */
  lemma {:induction false} NoDeadlock(s: State, t: TaskId) returns (chain: seq<TaskId>)
    requires Inv(s) && t in s.waiting
    ensures t in s.tasks && forall o :: o in Deps(s.tasks[t]) ==>
      o in s.objects && (s.objects[o].state.Reserved? || s.objects[o].state.Available?)
    ensures WaitChain(s, t, chain) && Active(s, chain[|chain| - 1])
    decreases if t in s.born then s.born[t] else 0
  {
    var u := PendingProducer(s, t);
    if u in s.waiting {
      var rest := NoDeadlock(s, u);
      chain := [t] + rest;
      forall i | 0 <= i < |chain| - 1 ensures chain[i] in s.waiting && PendingOn(s, chain[i], chain[i + 1]) {
        if i > 0 {
          assert rest[i - 1] in s.waiting && PendingOn(s, rest[i - 1], rest[i]);
        }
      }
    } else {
      chain := [t, u];
    }
  }

  /** And so does every way of following them: it goes on while it is at a waiting task, and a task it can stop at
      is runnable or in a worker's hands. */
  lemma EveryWayEndsActive(s: State, t: TaskId, chain: seq<TaskId>)
    requires Inv(s) && t in s.waiting && WaitChain(s, t, chain)
    ensures var last := chain[|chain| - 1];
      if last in s.waiting then exists u :: WaitChain(s, t, chain + [u]) else Active(s, last)
  {
    hide Conserved, QueueMatches, HoldersMatch;
    var last := chain[|chain| - 1];
    if last in s.waiting {
      var u := PendingProducer(s, last);
      var longer := chain + [u];
      forall i | 0 <= i < |longer| - 1 ensures longer[i] in s.waiting && PendingOn(s, longer[i], longer[i + 1]) {
        assert i < |chain| - 1 ==> chain[i] in s.waiting && PendingOn(s, chain[i], chain[i + 1]);
      }
      assert WaitChain(s, t, chain + [u]);
    } else {
      assert PendingOn(s, chain[|chain| - 2], last);
    }
  }

  /** Whichever pending inputs one follows, the way is shorter than the submission rank: there is no cycle. */
  lemma {:induction false} WaitChainsAreShort(s: State, t: TaskId, chain: seq<TaskId>)
    requires Inv(s) && WaitChain(s, t, chain)
    ensures |chain| <= s.born[t] + 1
    decreases |chain|
  {
    assert t in s.tasks;
    if |chain| > 1 {
      var rest := chain[1..];
      assert chain[0] in s.waiting && PendingOn(s, chain[0], chain[1]);
      forall i | 0 <= i < |rest| - 1 ensures rest[i] in s.waiting && PendingOn(s, rest[i], rest[i + 1]) {
        assert chain[i + 1] in s.waiting && PendingOn(s, chain[i + 1], chain[i + 2]);
      }
      WaitChainsAreShort(s, chain[1], rest);
      assert Feeds(s, chain[1], t);
    }
  }

  // ---------------------------------------------------------------- bookkeeping never fails

  /** After a passed fence check the hand-back cannot fail, the output is there and the operation is known:
      reports are refused only for what the worker got wrong. */
  lemma ReportsNeverTripBookkeeping(s: State, h: Bytes -> Digest, i: WorkerIdentity, f: TaskFence, r: TaskCompletion)
    requires Inv(s)
    ensures FenceOk(s, i, f) ==>
      && CanGiveBack(s, i.node, s.tasks[f.task].resources)
      && s.tasks[f.task].output in s.objects && s.objects[s.tasks[f.task].output].state.Reserved?
      && s.tasks[f.task].operation in s.operations
    ensures FailVerdict(s, i, f).Reject? ==> !FailVerdict(s, i, f).error.InvalidResource?
    ensures AckVerdict(s, i, f).Reject? ==> !AckVerdict(s, i, f).error.InvalidResource?
    ensures CompleteVerdict(s, h, i, r).Reject? ==>
      !CompleteVerdict(s, h, i, r).error.InvalidResource? && !CompleteVerdict(s, h, i, r).error.OperationUnavailable?
  {
    if FenceOk(s, i, f) {
      FenceMeansHeld(s, i, f);
      HeldCanGiveBack(s, i.node, f.task);
    }
    if FenceOk(s, i, r.fence) {
      FenceMeansHeld(s, i, r.fence);
      HeldCanGiveBack(s, i.node, r.fence.task);
    }
  }

  // ---------------------------------------------------------------- errors change nothing

  /** The call is answered with an error. */
  ghost predicate Fails(s: State, h: Bytes -> Digest, a: Action)
  {
    match a
    case DoRegister(r, addrOk, session, now, leaseMs) => Register(s, r, addrOk, session, now, leaseMs).reply.Err?
    case DoHeartbeat(i, now, leaseMs) => Heartbeat(s, i, now, leaseMs).reply.Err?
    case DoDrain(i) => Drain(s, i).reply.Err?
    case DoPut(codec, bytes) => PutInline(s, h, codec, bytes).reply.Err?
    case DoPutMeta(id, codec, size, checksum) => Admit(s, id, codec, size, checksum, None).reply.Err?
    case DoSubmit(op, args, resources, maxAttempts, task, output) =>
      Submit(s, op, args, resources, maxAttempts, task, output).reply.Err?
    case DoAssign(node, now, lease) => AssignNext(s, node, now, lease).reply.Err?
    case DoPoll(i, now, lease) => exists e :: PollAnswers(s, i, now, lease, PollError(e))
    case DoStarted(i, f) => Started(s, i, f).reply.Err?
    case DoComplete(i, report, order) => Complete(s, h, i, report, order).reply.Err?
    case DoFail(i, f, message, kind, now, order) => Fail(s, i, f, message, kind, now, order).reply.Err?
    case DoAckCancel(i, f, order) => AckCancel(s, i, f, order).reply.Err?
    case DoCancel(task, order) => Cancel(s, task, order).reply.Err?
    case DoRelease(id) => ReleaseObject(s, id).reply.Err?
    case _ => false
  }

  lemma AssignErrorChangesNothing(s: State, node: NodeId, now: int, lease: LeaseId)
    requires AssignNext(s, node, now, lease).reply.Err?
    ensures node !in s.workers && AssignNext(s, node, now, lease).state == s
  {
    if node in s.workers && s.workers[node].state.Alive? && s.workers[node].freeSlots != 0 {
      AssignNextState(s, node, now, lease);
    }
  }

  lemma PollErrorChangesNothing(s: State, i: WorkerIdentity, now: int, lease: LeaseId, e: Error)
    requires PollAnswers(s, i, now, lease, PollError(e))
    requires i.node in s.pendingDeletes ==> s.pendingDeletes[i.node] != []
    ensures PollState(s, i, now, lease) == s
  {
    var t := TakeDeletes(s, i.node).0;
    assert i.node !in s.pendingDeletes;
    assert t == s;
    if IdentityOk(t, i) {
      AssignErrorChangesNothing(t, i.node, now, lease);
    }
  }

  lemma ReportErrorChangesNothing(s: State, h: Bytes -> Digest, a: Action)
    requires FromHolder(a) && Fails(s, h, a)
    ensures Next(s, h, a) == s
  {
  }

  /** Every call answered with an error leaves the state as it was. Queued deletes are never empty lists. */
  lemma ErrorChangesNothing(s: State, h: Bytes -> Digest, a: Action)
    requires Fails(s, h, a)
    requires forall n :: n in s.pendingDeletes ==> s.pendingDeletes[n] != []
    ensures Next(s, h, a) == s
  {
    if FromHolder(a) {
      ReportErrorChangesNothing(s, h, a);
    } else {
      match a
      case DoAssign(node, now, lease) => AssignErrorChangesNothing(s, node, now, lease);
      case DoPoll(i, now, lease) => {
        var e :| PollAnswers(s, i, now, lease, PollError(e));
        PollErrorChangesNothing(s, i, now, lease, e);
      }
      case _ => {}
    }
  }
}
