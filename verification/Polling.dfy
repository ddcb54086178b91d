/** Polling: a worker holds at most one unstarted task, and polling again redelivers it without side effects. */
module Polling {
  import opened Types
  import opened Resources
  import opened Model
  import opened Invariants
  import opened Scheduling
  import opened Runs
  import opened Evolution
  import opened Progress

  // ---------------------------------------------------------------- queued deletes

  /** Deletes are queued only for registered workers, and never as an empty list. */
  ghost predicate DeletesMatch(s: State)
  {
    forall n :: n in s.pendingDeletes ==> n in s.workers && s.pendingDeletes[n] != []
  }

  lemma {:induction false} ReleaseAllDeletes(s: State, order: seq<ObjectId>, s': State)
    requires DeletesMatch(s) && s' == ReleaseAll(s, order).0
    ensures DeletesMatch(s') && s'.workers == s.workers
    decreases |order|
  {
    if order != [] {
      ReleaseAllDeletes(s, order[..|order| - 1], ReleaseAll(s, order[..|order| - 1]).0);
    }
  }

  lemma AssignDeletes(s: State, node: NodeId, now: int, lease: LeaseId, s': State)
    requires DeletesMatch(s) && s' == AssignNext(s, node, now, lease).state
    ensures DeletesMatch(s')
  {
    if node in s.workers && s.workers[node].state.Alive? && s.workers[node].freeSlots != 0 {
      AssignNextState(s, node, now, lease);
    }
  }

  /** The same deletes are queued for the same workers. */
  ghost predicate SameDeletes(s: State, s': State)
  {
    s'.pendingDeletes == s.pendingDeletes && s'.workers.Keys == s.workers.Keys
  }

  lemma CompleteDeletes(s: State, h: Bytes -> Digest, i: WorkerIdentity, r: TaskCompletion, order: seq<TaskId>)
    ensures SameDeletes(s, Complete(s, h, i, r, order).state)
  {
  }

  lemma FailDeletes(s: State, i: WorkerIdentity, f: TaskFence, message: string, kind: FailureClass, now: int,
                    order: seq<TaskId>)
    ensures SameDeletes(s, Fail(s, i, f, message, kind, now, order).state)
  {
    if FailVerdict(s, i, f).Apply? {
      assert SameDeletes(s, FailMid(s, i, f, message, kind, now));
    }
  }

  lemma AckDeletes(s: State, i: WorkerIdentity, f: TaskFence, order: seq<TaskId>)
    ensures SameDeletes(s, AckCancel(s, i, f, order).state)
  {
  }

  lemma ReportKeepsDeletes(s: State, h: Bytes -> Digest, a: Action, s': State)
    requires DeletesMatch(s) && FromHolder(a) && s' == Next(s, h, a)
    ensures DeletesMatch(s')
  {
    match a
    case DoComplete(i, report, order) => CompleteDeletes(s, h, i, report, order);
    case DoFail(i, f, message, kind, now, order) => FailDeletes(s, i, f, message, kind, now, order);
    case DoAckCancel(i, f, order) => AckDeletes(s, i, f, order);
    case DoStarted(_, _) =>
  }

  lemma CancelDeletes(s: State, t: TaskId, order: seq<TaskId>)
    ensures SameDeletes(s, Cancel(s, t, order).state)
  {
  }

  lemma SubmitDeletes(s: State, op: OperationKey, args: seq<TaskArg>, resources: ResourceSet, maxAttempts: int,
                      id: TaskId, output: ObjectId)
    ensures SameDeletes(s, Submit(s, op, args, resources, maxAttempts, id, output).state)
  {
  }

  lemma ReleaseDeletes(s: State, id: ObjectId)
    requires DeletesMatch(s)
    ensures DeletesMatch(ReleaseObject(s, id).state)
  {
  }

  lemma ClientKeepsDeletes(s: State, h: Bytes -> Digest, a: Action, s': State)
    requires DeletesMatch(s) && FromClient(a) && s' == Next(s, h, a)
    ensures DeletesMatch(s')
  {
    hide Submit, Cancel, ReleaseObject;
    match a
    case DoSubmit(op, args, resources, maxAttempts, task, output) =>
      SubmitDeletes(s, op, args, resources, maxAttempts, task, output);
    case DoCancel(task, order) => CancelDeletes(s, task, order);
    case DoRelease(id) => ReleaseDeletes(s, id);
    case DoPut(_, _) =>
    case DoPutMeta(_, _, _, _) =>
  }

  lemma ExpireKeepsDeletes(s: State, now: int, retried: seq<TaskId>, order: seq<TaskId>, s': State)
    requires DeletesMatch(s) && s' == ExpireWorkers(s, now, retried, order)
    ensures DeletesMatch(s')
  {
  }

  lemma PollKeepsDeletes(s: State, i: WorkerIdentity, now: int, lease: LeaseId, s': State)
    requires DeletesMatch(s) && s' == PollState(s, i, now, lease)
    ensures DeletesMatch(s')
  {
    var t := TakeDeletes(s, i.node).0;
    AssignDeletes(t, i.node, now, lease, AssignNext(t, i.node, now, lease).state);
  }

  lemma RegisterDeletes(s: State, r: RegisterWorker, addrOk: bool, session: SessionId, now: int, leaseMs: int)
    requires DeletesMatch(s)
    ensures DeletesMatch(Register(s, r, addrOk, session, now, leaseMs).state)
  {
  }

  lemma NextKeepsDeletes(s: State, h: Bytes -> Digest, a: Action, s': State)
    requires DeletesMatch(s) && s' == Next(s, h, a)
    ensures DeletesMatch(s')
  {
    if FromHolder(a) {
      ReportKeepsDeletes(s, h, a, s');
    } else if FromClient(a) {
      ClientKeepsDeletes(s, h, a, s');
    } else {
      match a
      case DoAssign(node, now, lease) => AssignDeletes(s, node, now, lease, s');
      case DoPoll(i, now, lease) => PollKeepsDeletes(s, i, now, lease, s');
      case DoExpire(now, retried, order) => ExpireKeepsDeletes(s, now, retried, order, s');
      case DoReap(now, due) => ReleaseAllDeletes(Stamp(s, now), due, s');
      case DoRegister(r, addrOk, session, now, leaseMs) => RegisterDeletes(s, r, addrOk, session, now, leaseMs);
      case _ => {}
    }
  }

  lemma {:induction false} RunDeletes(h: Bytes -> Digest, states: seq<State>, actions: seq<Action>, k: nat)
    requires IsRun(h, states, actions) && k < |states|
    ensures DeletesMatch(states[k])
    decreases k
  {
    if k > 0 {
      RunDeletes(h, states, actions, k - 1);
      assert StepAt(h, states, actions, k - 1);
      NextKeepsDeletes(states[k - 1], h, actions[k - 1], states[k]);
    }
  }

  /** In every run, a call answered with an error leaves the state exactly as it was. */
  lemma RunErrorsChangeNothing(h: Bytes -> Digest, states: seq<State>, actions: seq<Action>, k: nat)
    requires IsRun(h, states, actions) && k < |actions| && Fails(states[k], h, actions[k])
    ensures states[k + 1] == states[k]
  {
    RunDeletes(h, states, actions, k);
    assert StepAt(h, states, actions, k);
    ErrorChangesNothing(states[k], h, actions[k]);
  }

  // ---------------------------------------------------------------- at most one unstarted task

  predicate UnstartedOn(s: State, t: TaskId, n: NodeId)
  {
    t in s.tasks && s.tasks[t].state.Assigned? && s.tasks[t].holder.Some? && s.tasks[t].holder.value.node == n
  }

  ghost predicate OneUnstarted(s: State)
  {
    forall t, u, n :: UnstartedOn(s, t, n) && UnstartedOn(s, u, n) ==> t == u
  }

  /** No task becomes assigned. */
  ghost predicate NoneAssigned(s: State, s': State)
  {
    forall t :: t in s'.tasks && s'.tasks[t].state.Assigned? ==> t in s.tasks && s'.tasks[t] == s.tasks[t]
  }

  lemma NoneAssignedKeepsOne(s: State, s': State)
    requires OneUnstarted(s) && NoneAssigned(s, s')
    ensures OneUnstarted(s')
  {
    forall t, u, n | UnstartedOn(s', t, n) && UnstartedOn(s', u, n) ensures t == u {
      assert UnstartedOn(s, t, n) && UnstartedOn(s, u, n);
    }
  }

  /** Only a scheduling call hands out work. */
  lemma EvolvesAssignsNone(s: State, s': State, k: Tick)
    requires Evolves(s, s', k) && !k.hands
    ensures NoneAssigned(s, s')
  {
    forall t | t in s'.tasks && s'.tasks[t].state.Assigned? ensures t in s.tasks && s'.tasks[t] == s.tasks[t] {
      assert t in s.tasks ==> Moves(s.tasks[t], s'.tasks[t], k);
    }
  }

  /** A worker whose identity checks out and that has no unstarted task under it has none at all. */
  lemma NoneUnstartedAtAll(s: State, i: WorkerIdentity, t: TaskId)
    requires HoldersMatch(s) && IdentityOk(s, i) && UnstartedFor(s, i) == {}
    ensures !UnstartedOn(s, t, i.node)
  {
    assert UnstartedOn(s, t, i.node) ==> t in UnstartedFor(s, i);
  }

  lemma AssignKeepsOne(s: State, i: WorkerIdentity, now: int, lease: LeaseId, s': State)
    requires HoldersMatch(s) && OneUnstarted(s) && IdentityOk(s, i) && UnstartedFor(s, i) == {}
    requires s' == AssignNext(s, i.node, now, lease).state
    ensures OneUnstarted(s')
  {
    if i.node in s.workers && s.workers[i.node].state.Alive? && s.workers[i.node].freeSlots != 0 {
      AssignNextState(s, i.node, now, lease);
      forall t, u, n | UnstartedOn(s', t, n) && UnstartedOn(s', u, n) ensures t == u {
        NoneUnstartedAtAll(s, i, t);
        NoneUnstartedAtAll(s, i, u);
        if n != i.node {
          assert UnstartedOn(s, t, n) && UnstartedOn(s, u, n);
        }
      }
    }
  }

  lemma PollKeepsOne(s: State, i: WorkerIdentity, now: int, lease: LeaseId, s': State)
    requires HoldersMatch(s) && OneUnstarted(s) && s' == PollState(s, i, now, lease)
    ensures OneUnstarted(s')
  {
    var t := TakeDeletes(s, i.node).0;
    assert NoneAssigned(s, t) && NoneAssigned(s, PopDelete(s, i.node));
    NoneAssignedKeepsOne(s, t);
    NoneAssignedKeepsOne(s, PopDelete(s, i.node));
    if IdentityOk(t, i) && UnstartedFor(t, i) == {} {
      AssignKeepsOne(t, i, now, lease, AssignNext(t, i.node, now, lease).state);
    }
  }

  /** When tasks are handed out only in answer to polls, no worker ever holds two unstarted tasks. */
  lemma {:induction false} OneUnstartedInEveryRun(h: Bytes -> Digest, states: seq<State>, actions: seq<Action>, k: nat)
    requires IsRun(h, states, actions) && k < |states|
    requires forall j :: 0 <= j < |actions| ==> !actions[j].DoAssign?
    ensures OneUnstarted(states[k])
    decreases k
  {
    hide Inv, Legal, Next, OneUnstarted;
    if k == 0 {
      NoneUnstartedAtFirst(states[0].epoch);
    } else {
      OneUnstartedInEveryRun(h, states, actions, k - 1);
      RunInv(h, states, actions, k - 1);
      assert StepAt(h, states, actions, k - 1);
      OneUnstartedStep(states[k - 1], h, actions[k - 1], states[k]);
    }
  }

  lemma NoneUnstartedAtFirst(epoch: Epoch)
    ensures OneUnstarted(Init(epoch))
  {
  }

  lemma OneUnstartedStep(s: State, h: Bytes -> Digest, a: Action, s': State)
    requires Inv(s) && Legal(s, h, a) && s' == Next(s, h, a) && OneUnstarted(s) && !a.DoAssign?
    ensures OneUnstarted(s')
  {
    if a.DoPoll? {
      PollKeepsOne(s, a.i, a.now, a.lease, s');
    } else {
      NextEvolves(s, h, a, s');
      EvolvesAssignsNone(s, s', TickOf(a));
      NoneAssignedKeepsOne(s, s');
    }
  }

  // ---------------------------------------------------------------- redelivery

  /** With no delete and no cancellation pending, a worker that holds an unstarted task gets exactly that
      assignment from every poll, whatever the clock says, and the poll changes nothing at all. */
  lemma PollRedelivers(s: State, i: WorkerIdentity, now: int, lease: LeaseId, t: TaskId, reply: PollReply)
    requires OneUnstarted(s) && IdentityOk(s, i) && t in UnstartedFor(s, i)
    requires i.node !in s.pendingDeletes && CancellationsFor(s, i) == {}
    ensures PollState(s, i, now, lease) == s
    ensures PollAnswers(s, i, now, lease, reply) <==>
      reply == Assign(Some(TaskAssignment(TaskFence(t, s.tasks[t].attempt, s.tasks[t].holder.value.lease),
                                          s.tasks[t].operation, s.tasks[t].args, s.tasks[t].output,
                                          s.tasks[t].resources)))
  {
    assert TakeDeletes(s, i.node).0 == s;
    forall u | u in UnstartedFor(s, i) ensures u == t {
      assert UnstartedOn(s, u, i.node) && UnstartedOn(s, t, i.node);
    }
  }

  /** A poll that hands out new work is answered the same way when it is repeated. */
  lemma PollIsRepeatable(s: State, i: WorkerIdentity, now: int, lease: LeaseId, a: TaskAssignment,
                         now2: int, lease2: LeaseId, reply: PollReply)
    requires Inv(s) && OneUnstarted(s) && PollAnswers(s, i, now, lease, Assign(Some(a)))
    ensures var s' := PollState(s, i, now, lease);
      && PollState(s', i, now2, lease2) == s'
      && (PollAnswers(s', i, now2, lease2, reply) <==> reply == Assign(Some(a)))
  {
    var t := TakeDeletes(s, i.node).0;
    var s' := PollState(s, i, now, lease);
    PollKeepsOne(s, i, now, lease, s');
    DeletesKeep(s, t);
    if UnstartedFor(t, i) != {} {
      var c :| c in UnstartedFor(t, i) && Assign(Some(a)) ==
        Assign(Some(AssignmentOf(c, t.tasks[c], t.tasks[c].holder.value.lease)));
      PollRedelivers(s', i, now2, lease2, c, reply);
    } else {
      AssignAnswers(t, i, now, lease, a);
      PollRedelivers(s', i, now2, lease2, a.fence.task, reply);
    }
  }

  lemma AssignAnswers(s: State, i: WorkerIdentity, now: int, lease: LeaseId, a: TaskAssignment)
    requires Inv(s) && IdentityOk(s, i) && CancellationsFor(s, i) == {}
    requires AssignNext(s, i.node, now, lease).reply == Ok(Some(a))
    ensures var s' := AssignNext(s, i.node, now, lease).state;
      && s'.pendingDeletes == s.pendingDeletes && IdentityOk(s', i)
      && a.fence.task in UnstartedFor(s', i) && CancellationsFor(s', i) == {}
      && a == AssignmentOf(a.fence.task, s'.tasks[a.fence.task], s'.tasks[a.fence.task].holder.value.lease)
  {
    AssignNextState(s, i.node, now, lease);
    var s' := AssignNext(s, i.node, now, lease).state;
    forall c | c in CancellationsFor(s', i) ensures c in CancellationsFor(s, i) {
    }
  }
}
