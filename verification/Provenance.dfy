/** Where things come from, in any run: what a worker is handed is what a client submitted, and a report counts only
    from the worker that was handed the task. Workers are as they registered, take nothing once they drain, and are
    never asked for more than they have. */
module Provenance {
  import opened Types
  import opened Model
  import opened Invariants
  import opened Scheduling
  import opened Runs
  import opened Evolution
  import opened Submission
  import opened Reports
  import opened Leases
  import opened Tables
  import opened Registration
  import opened Sums
  import opened Resources

  // ---------------------------------------------------------------- tasks

  /** The call is a granted submission of task `t`. */
  predicate Submits(s: State, a: Action, t: TaskId)
  {
    && a.DoSubmit? && a.task == t
    && Submit(s, a.op, a.args, a.resources, a.maxAttempts, a.task, a.output).reply.Ok?
  }

  /** The task does what the call asked for. */
  predicate JobOf(task: Task, a: Action)
    requires a.DoSubmit?
  {
    && task.operation == a.op && task.args == a.args && task.output == a.output
    && task.resources == a.resources && task.maxAttempts == a.maxAttempts
  }

  lemma NewTaskWasSubmitted(s: State, h: Bytes -> Digest, a: Action, s': State, t: TaskId)
    requires Inv(s) && Legal(s, h, a) && s' == Next(s, h, a) && t in s'.tasks && t !in s.tasks
    ensures Submits(s, a, t) && JobOf(s'.tasks[t], a)
  {
    hide Inv, Legal, Submit;
    if a.DoSubmit? {
      SubmitAcceptedIff(s, a.op, a.args, a.resources, a.maxAttempts, a.task, a.output);
      if Acceptable(s, a.op, a.args, a.resources, a.maxAttempts) {
        SubmitFiles(s, a.op, a.args, a.resources, a.maxAttempts, a.task, a.output);
      }
    } else {
      NoNewTasks(s, h, a, s', t);
    }
  }

  lemma JobStays(s: State, h: Bytes -> Digest, a: Action, s': State, t: TaskId)
    requires Inv(s) && Legal(s, h, a) && s' == Next(s, h, a) && t in s'.tasks && t in s.tasks
    ensures SameJob(s.tasks[t], s'.tasks[t])
  {
    hide Inv, Legal, Next;
    NextEvolves(s, h, a, s');
    assert Moves(s.tasks[t], s'.tasks[t], TickOf(a));
  }

  /** Every task in the table was submitted earlier in the run, and is still exactly the job that was submitted. */
  lemma {:induction false} TaskAsSubmitted(h: Bytes -> Digest, states: seq<State>, actions: seq<Action>, k: nat,
                                           t: TaskId)
    returns (i: nat)
    requires IsRun(h, states, actions) && k < |states| && t in states[k].tasks
    ensures i < k && Submits(states[i], actions[i], t) && JobOf(states[k].tasks[t], actions[i])
    decreases k
  {
    hide Inv, Legal, Next, Submits;
    assert k > 0;
    RunInv(h, states, actions, k - 1);
    assert StepAt(h, states, actions, k - 1);
    if t in states[k - 1].tasks {
      i := TaskAsSubmitted(h, states, actions, k - 1, t);
      JobStays(states[k - 1], h, actions[k - 1], states[k], t);
    } else {
      NewTaskWasSubmitted(states[k - 1], h, actions[k - 1], states[k], t);
      i := k - 1;
    }
  }

  // ---------------------------------------------------------------- hand-outs

  /** The call is answered with assignment `r` for node `n`. */
  predicate HandsOut(s: State, a: Action, n: NodeId, r: TaskAssignment)
  {
    || (a.DoAssign? && a.node == n && AssignNext(s, a.node, a.now, a.lease).reply == Ok(Some(r)))
    || (a.DoPoll? && a.i.node == n && PollAnswers(s, a.i, a.now, a.lease, Assign(Some(r))))
  }

  /** The task is assigned and unstarted, and `r` is the assignment its holder, on node `n`, works under. */
  predicate WorksUnder(s: State, n: NodeId, r: TaskAssignment)
  {
    && r.fence.task in s.tasks && s.tasks[r.fence.task].state == Assigned
    && CarriesJob(r, s.tasks[r.fence.task]) && s.tasks[r.fence.task].attempt == r.fence.attempt
    && s.tasks[r.fence.task].holder.Some? && s.tasks[r.fence.task].holder.value.node == n
    && s.tasks[r.fence.task].holder.value.lease == r.fence.lease
  }

  lemma AssignHandsOut(s: State, n: NodeId, now: int, lease: LeaseId, r: TaskAssignment)
    requires Inv(s) && AssignNext(s, n, now, lease).reply == Ok(Some(r))
    ensures WorksUnder(AssignNext(s, n, now, lease).state, n, r)
  {
    hide Inv;
    AssignAgreesWithTable(s, n, now, lease);
  }

  /** The task is in this state and held by this very session. */
  predicate HeldIn(s: State, i: WorkerIdentity, t: TaskId, state: TaskState)
  {
    && t in s.tasks && s.tasks[t].state == state && s.tasks[t].holder.Some?
    && s.tasks[t].holder == Some(Assignment(i.node, i.workerEpoch, i.session, s.tasks[t].holder.value.lease))
  }

  /** A poll with no delete queued: a stranger is refused; a task the worker is to stop comes first, then one it was
      given and has not started, each under its current fence; only then is new work looked for. */
  lemma PollOrder(s: State, i: WorkerIdentity, now: int, lease: LeaseId, reply: PollReply)
    requires Inv(s) && i.node !in s.pendingDeletes && PollAnswers(s, i, now, lease, reply)
    ensures if !IsRegistered(s, i) then reply == PollError(StaleFence) && PollState(s, i, now, lease) == s
            else if exists t :: HeldIn(s, i, t, CancelRequested) then
              && PollState(s, i, now, lease) == s && reply.CancelTask?
              && HoldsNow(s, i, reply.fence) && s.tasks[reply.fence.task].state == CancelRequested
            else if exists t :: HeldIn(s, i, t, Assigned) then
              && PollState(s, i, now, lease) == s && reply.Assign? && reply.assignment.Some?
              && HoldsNow(s, i, reply.assignment.value.fence) && WorksUnder(s, i.node, reply.assignment.value)
            else
              && PollState(s, i, now, lease) == AssignNext(s, i.node, now, lease).state
              && (match AssignNext(s, i.node, now, lease).reply
                  case Ok(a) => reply == Assign(a)
                  case Err(e) => reply == PollError(e))
  {
    hide AssignNext, Inv, HeldIn, IdentityOk, CancellationsFor, UnstartedFor, IsRegistered, HoldsNow, WorksUnder;
    assert TakeDeletes(s, i.node).0 == s;
    HeldInMeans(s, i);
    if IsRegistered(s, i) {
      forall c | c in CancellationsFor(s, i)
        ensures c in s.tasks && s.tasks[c].holder.Some? && s.tasks[c].state == CancelRequested
        ensures HoldsNow(s, i, FenceOf(s, c))
      {
        HeldInHolds(s, i, c, CancelRequested);
      }
      forall c | c in UnstartedFor(s, i)
        ensures c in s.tasks && s.tasks[c].holder.Some?
        ensures var r := AssignmentOf(c, s.tasks[c], s.tasks[c].holder.value.lease);
          HoldsNow(s, i, r.fence) && WorksUnder(s, i.node, r)
      {
        HeldInHolds(s, i, c, Assigned);
      }
    }
  }

  lemma HeldInMeans(s: State, i: WorkerIdentity)
    requires Inv(s)
    ensures IdentityOk(s, i) <==> IsRegistered(s, i)
    ensures forall t :: t in CancellationsFor(s, i) <==> HeldIn(s, i, t, CancelRequested)
    ensures forall t :: t in UnstartedFor(s, i) <==> HeldIn(s, i, t, Assigned)
  {
    hide Conserved, OutputsMatch, LineageMatches, QueueMatches, ObjectsMatch, HoldersMatch;
  }

  lemma HeldInHolds(s: State, i: WorkerIdentity, t: TaskId, state: TaskState)
    requires IsRegistered(s, i) && HeldIn(s, i, t, state)
    ensures s.tasks[t].state == state && HoldsNow(s, i, FenceOf(s, t))
    ensures state == Assigned ==>
      var r := AssignmentOf(t, s.tasks[t], s.tasks[t].holder.value.lease);
      HoldsNow(s, i, r.fence) && WorksUnder(s, i.node, r)
  {
  }

  /** New or delivered again, an assignment carries the task's own job under its current attempt and lease. */
  lemma HandOutIsCurrent(s: State, h: Bytes -> Digest, a: Action, s': State, n: NodeId, r: TaskAssignment)
    requires Inv(s) && s' == Next(s, h, a) && HandsOut(s, a, n, r)
    ensures WorksUnder(s', n, r)
  {
    hide Inv, AssignNext;
    if a.DoAssign? {
      AssignHandsOut(s, n, a.now, a.lease, r);
    } else {
      var t := TakeDeletes(s, n).0;
      DeletesKeep(s, t);
      if UnstartedFor(t, a.i) == {} {
        AssignHandsOut(t, n, a.now, a.lease, r);
      }
    }
  }

  /** Every assignment a worker is ever sent carries exactly what a client submitted for that task, and its attempt
      number is within what the client allowed. */
  lemma HandedOutAsSubmitted(h: Bytes -> Digest, states: seq<State>, actions: seq<Action>, k: nat, n: NodeId,
                             r: TaskAssignment)
    returns (i: nat)
    requires IsRun(h, states, actions) && k < |actions| && HandsOut(states[k], actions[k], n, r)
    ensures i <= k && Submits(states[i], actions[i], r.fence.task)
    ensures r.operation == actions[i].op && r.args == actions[i].args && r.output == actions[i].output
    ensures r.resources == actions[i].resources && 1 <= r.fence.attempt <= actions[i].maxAttempts
  {
    hide Legal, Next, HandsOut, Submits;
    RunInv(h, states, actions, k);
    RunInv(h, states, actions, k + 1);
    assert StepAt(h, states, actions, k);
    HandOutIsCurrent(states[k], h, actions[k], states[k + 1], n, r);
    i := TaskAsSubmitted(h, states, actions, k + 1, r.fence.task);
    assert AttemptsOk(states[k + 1].tasks[r.fence.task]);
  }

  // ---------------------------------------------------------------- holders

  lemma AssignTakes(s: State, n: NodeId, now: int, lease: LeaseId, t: TaskId)
    requires Inv(s)
    ensures var s' := AssignNext(s, n, now, lease).state;
      t in s.tasks && s.tasks[t].holder.None? && t in s'.tasks && s'.tasks[t].holder.Some? ==>
        && n in s.workers && s.workers[n].state == Alive && s'.tasks[t].holder.value.node == n
        && s'.tasks[t].holder.value.workerEpoch == s.workers[n].identity.workerEpoch
        && s'.tasks[t].holder.value.session == s.workers[n].identity.session
        && exists r: TaskAssignment :: AssignNext(s, n, now, lease).reply == Ok(Some(r))
             && r.fence == TaskFence(t, s'.tasks[t].attempt, s'.tasks[t].holder.value.lease)
  {
    hide Inv;
    if n in s.workers && s.workers[n].state.Alive? && s.workers[n].freeSlots != 0 {
      AssignAgreesWithTable(s, n, now, lease);
    }
  }

  /** A task that gets a holder is being handed out, to a worker in service, under that holder's fence. */
  lemma NewHolderWasHandedOut(s: State, h: Bytes -> Digest, a: Action, s': State, t: TaskId)
    returns (r: TaskAssignment)
    requires Inv(s) && Legal(s, h, a) && s' == Next(s, h, a)
    requires t in s.tasks && s.tasks[t].holder.None? && t in s'.tasks && s'.tasks[t].holder.Some?
    ensures var x := s'.tasks[t].holder.value;
      && HandsOut(s, a, x.node, r) && r.fence == TaskFence(t, s'.tasks[t].attempt, x.lease)
      && x.node in s.workers && s.workers[x.node].state == Alive
      && x.workerEpoch == s.workers[x.node].identity.workerEpoch && x.session == s.workers[x.node].identity.session
  {
    hide Inv, AssignNext;
    NextEvolves(s, h, a, s');
    assert Moves(s.tasks[t], s'.tasks[t], TickOf(a));
    if a.DoAssign? {
      AssignTakes(s, a.node, a.now, a.lease, t);
      r :| AssignNext(s, a.node, a.now, a.lease).reply == Ok(Some(r))
        && r.fence == TaskFence(t, s'.tasks[t].attempt, s'.tasks[t].holder.value.lease);
    } else {
      var d := TakeDeletes(s, a.i.node).0;
      DeletesKeep(s, d);
      AssignTakes(d, a.i.node, a.now, a.lease, t);
      r :| AssignNext(d, a.i.node, a.now, a.lease).reply == Ok(Some(r))
        && r.fence == TaskFence(t, s'.tasks[t].attempt, s'.tasks[t].holder.value.lease);
    }
  }

  /** A holder got its task earlier in the run, in answer to a call for its node, while it was registered under the
      session it holds the task in, and in service. */
  lemma {:induction false} HolderWasHandedOut(h: Bytes -> Digest, states: seq<State>, actions: seq<Action>, k: nat,
                                              t: TaskId)
    returns (j: nat, r: TaskAssignment)
    requires IsRun(h, states, actions) && k < |states| && t in states[k].tasks && states[k].tasks[t].holder.Some?
    ensures var x := states[k].tasks[t].holder.value;
      && j < k && HandsOut(states[j], actions[j], x.node, r)
      && r.fence == TaskFence(t, states[k].tasks[t].attempt, x.lease)
      && x.node in states[j].workers && states[j].workers[x.node].state == Alive
      && states[j].workers[x.node].identity.workerEpoch == x.workerEpoch
      && states[j].workers[x.node].identity.session == x.session
    decreases k
  {
    hide Inv, Legal, Next, HandsOut;
    assert k > 0;
    RunInv(h, states, actions, k - 1);
    assert StepAt(h, states, actions, k - 1);
    HolderStep(states[k - 1], h, actions[k - 1], states[k], t);
    if states[k - 1].tasks[t].holder.Some? {
      j, r := HolderWasHandedOut(h, states, actions, k - 1, t);
    } else {
      r := NewHolderWasHandedOut(states[k - 1], h, actions[k - 1], states[k], t);
      j := k - 1;
    }
  }

  /** A held task was there before, unheld or held by the same holder under the same attempt. */
  lemma HolderStep(s: State, h: Bytes -> Digest, a: Action, s': State, t: TaskId)
    requires Inv(s) && Legal(s, h, a) && s' == Next(s, h, a) && t in s'.tasks && s'.tasks[t].holder.Some?
    ensures t in s.tasks
    ensures s.tasks[t].holder.Some? ==>
      s.tasks[t].holder == s'.tasks[t].holder && s.tasks[t].attempt == s'.tasks[t].attempt
  {
    hide Inv, Legal, Next;
    NextEvolves(s, h, a, s');
    if t in s.tasks {
      assert Moves(s.tasks[t], s'.tasks[t], TickOf(a));
    }
  }

  /** A report passes for a task's holder only if this very session was sent this very fence earlier in the run. */
  lemma ReportFollowsHandOut(h: Bytes -> Digest, states: seq<State>, actions: seq<Action>, k: nat, i: WorkerIdentity,
                             f: TaskFence)
    returns (j: nat, r: TaskAssignment)
    requires IsRun(h, states, actions) && k < |states| && HoldsNow(states[k], i, f)
    ensures j < k && HandsOut(states[j], actions[j], i.node, r) && r.fence == f
    ensures i.node in states[j].workers && states[j].workers[i.node].identity.workerEpoch == i.workerEpoch
    ensures states[j].workers[i.node].identity.session == i.session
  {
    hide IsRun, HandsOut;
    j, r := HolderWasHandedOut(h, states, actions, k, f.task);
  }

  // ---------------------------------------------------------------- workers

  lemma RenewalKeepsWorker(s: State, h: Bytes -> Digest, a: Action, s': State, n: NodeId)
    requires WorkersMatch(s) && Renews(s, a, n) && s' == Next(s, h, a) && n in s.workers
    ensures n in s'.workers && s'.workers[n] == s.workers[n].(leaseDeadline := s'.workers[n].leaseDeadline)
  {
    hide Register;
    if a.DoRegister? {
      RegisterEffect(s, a.r, a.addrOk, a.session, a.now, a.leaseMs);
    }
  }

  /** A worker stays out of service from the moment it is drained until its lease runs out. */
  lemma {:induction false} DrainStays(h: Bytes -> Digest, states: seq<State>, actions: seq<Action>, i: nat, j: nat,
                                      n: NodeId)
    requires IsRun(h, states, actions) && i < j < |states| && Drains(states[i], actions[i], n)
    requires forall k :: i < k <= j ==> n in states[k].workers
    ensures states[j].workers[n].state == Draining
    decreases j
  {
    hide Legal, Next, Conserved, OutputsMatch, HoldersMatch, LineageMatches, QueueMatches, Renews;
    RunInv(h, states, actions, j - 1);
    assert StepAt(h, states, actions, j - 1);
    if i < j - 1 {
      DrainStays(h, states, actions, i, j - 1, n);
      if Renews(states[j - 1], actions[j - 1], n) {
        RenewalKeepsWorker(states[j - 1], h, actions[j - 1], states[j], n);
      } else {
        WorkerStep(states[j - 1], h, actions[j - 1], states[j], n);
      }
    } else {
      DrainIsNoRenewal(states[i], actions[i], n);
      WorkerStep(states[i], h, actions[i], states[j], n);
    }
  }

  lemma DrainIsNoRenewal(s: State, a: Action, n: NodeId)
    requires Drains(s, a, n)
    ensures !Renews(s, a, n)
  {
  }

  /** So a drained worker is never given another task. */
  lemma DrainedTakesNothing(h: Bytes -> Digest, states: seq<State>, actions: seq<Action>, i: nat, j: nat, n: NodeId,
                            t: TaskId)
    requires IsRun(h, states, actions) && i < j < |actions| && Drains(states[i], actions[i], n)
    requires forall k :: i < k <= j ==> n in states[k].workers
    requires t in Held(states[j + 1].tasks, n)
    ensures t in Held(states[j].tasks, n)
  {
    hide Inv, Legal, Next, Drains;
    RunInv(h, states, actions, j);
    assert StepAt(h, states, actions, j);
    HolderStep(states[j], h, actions[j], states[j + 1], t);
    if states[j].tasks[t].holder.None? {
      DrainStays(h, states, actions, i, j, n);
      var r := NewHolderWasHandedOut(states[j], h, actions[j], states[j + 1], t);
      assert false;
    }
  }

  /** The call is a granted registration of node `n`. */
  predicate Registers(s: State, a: Action, n: NodeId)
  {
    a.DoRegister? && a.r.node == n && Register(s, a.r, a.addrOk, a.session, a.now, a.leaseMs).reply.Ok?
  }

  lemma WorkerStepDescribes(s: State, h: Bytes -> Digest, a: Action, s': State, n: NodeId)
    requires Inv(s) && Legal(s, h, a) && s' == Next(s, h, a) && n in s'.workers
    ensures if Registers(s, a, n) then DescribedBy(s'.workers[n], a.r)
            else n in s.workers && forall r :: DescribedBy(s.workers[n], r) ==> DescribedBy(s'.workers[n], r)
  {
    hide Legal, Register, Conserved, OutputsMatch, HoldersMatch, LineageMatches, QueueMatches;
    if Registers(s, a, n) {
      RegisterEffect(s, a.r, a.addrOk, a.session, a.now, a.leaseMs);
    } else if Renews(s, a, n) {
      assert a.DoHeartbeat?;
      RenewalKeepsWorker(s, h, a, s', n);
    } else {
      WorkerStep(s, h, a, s', n);
    }
  }

  /** Every registered worker registered earlier in the run, and has the address, totals, slots and operations it
      registered with. */
  lemma {:induction false} WorkerAsRegistered(h: Bytes -> Digest, states: seq<State>, actions: seq<Action>, k: nat,
                                              n: NodeId)
    returns (i: nat)
    requires IsRun(h, states, actions) && k < |states| && n in states[k].workers
    ensures i < k && Registers(states[i], actions[i], n) && DescribedBy(states[k].workers[n], actions[i].r)
    decreases k
  {
    hide Inv, Legal, Next, DescribedBy;
    assert k > 0;
    RunInv(h, states, actions, k - 1);
    assert StepAt(h, states, actions, k - 1);
    WorkerStepDescribes(states[k - 1], h, actions[k - 1], states[k], n);
    if Registers(states[k - 1], actions[k - 1], n) {
      i := k - 1;
    } else {
      i := WorkerAsRegistered(h, states, actions, k - 1, n);
    }
  }

  // ---------------------------------------------------------------- what was asked for, and what there is

  /** How much of a resource the last submission of `t` among the first `k` calls asked for. */
  function Asked(actions: seq<Action>, k: nat, t: TaskId, name: Name): int
    requires k <= |actions|
  {
    if k == 0 then 0
    else if actions[k - 1].DoSubmit? && actions[k - 1].task == t then Get(actions[k - 1].resources, name)
    else Asked(actions, k - 1, t, name)
  }

  lemma {:induction false} AskedIsDemand(h: Bytes -> Digest, states: seq<State>, actions: seq<Action>, k: nat,
                                         t: TaskId, name: Name)
    requires IsRun(h, states, actions) && k < |states| && t in states[k].tasks
    ensures Asked(actions, k, t, name) == Get(states[k].tasks[t].resources, name)
    decreases k
  {
    hide Next, Submit, Conserved, OutputsMatch, HoldersMatch, QueueMatches;
    assert k > 0;
    RunInv(h, states, actions, k - 1);
    assert StepAt(h, states, actions, k - 1);
    if t in states[k - 1].tasks {
      AskedIsDemand(h, states, actions, k - 1, t, name);
      JobStays(states[k - 1], h, actions[k - 1], states[k], t);
      assert !(actions[k - 1].DoSubmit? && actions[k - 1].task == t);
    } else {
      NewTaskWasSubmitted(states[k - 1], h, actions[k - 1], states[k], t);
    }
  }

  lemma {:induction false} SlotsNeverOverdrawn(h: Bytes -> Digest, states: seq<State>, actions: seq<Action>, k: nat,
                                               n: NodeId)
    requires IsRun(h, states, actions) && k < |states| && n in states[k].workers
    ensures 0 <= states[k].workers[n].freeSlots
    decreases k
  {
    hide Legal, Next, Conserved, OutputsMatch, HoldersMatch, LineageMatches, QueueMatches;
    assert k > 0;
    RunInv(h, states, actions, k - 1);
    assert StepAt(h, states, actions, k - 1);
    var s, a := states[k - 1], actions[k - 1];
    if !Renews(s, a, n) {
      WorkerStep(s, h, a, states[k], n);
      SlotsNeverOverdrawn(h, states, actions, k - 1, n);
    } else if n in s.workers {
      RenewalKeepsWorker(s, h, a, states[k], n);
      SlotsNeverOverdrawn(h, states, actions, k - 1, n);
    } else {
      NewWorkerIsFree(s, h, a, states[k], n);
    }
  }

  lemma NewWorkerIsFree(s: State, h: Bytes -> Digest, a: Action, s': State, n: NodeId)
    requires WorkersMatch(s) && Renews(s, a, n) && s' == Next(s, h, a) && n !in s.workers
    ensures n in s'.workers && 0 <= s'.workers[n].freeSlots
  {
    hide Register;
    if a.DoRegister? {
      RegisterEffect(s, a.r, a.addrOk, a.session, a.now, a.leaseMs);
    }
  }

  lemma AskedAddsUp(h: Bytes -> Digest, states: seq<State>, actions: seq<Action>, k: nat, n: NodeId, name: Name)
    requires IsRun(h, states, actions) && k < |states|
    ensures Sum(Held(states[k].tasks, n), t => Asked(actions, k, t, name)) == Load(states[k].tasks, n, name)
  {
    hide StepAt;
    var tasks := states[k].tasks;
    forall t | t in Held(tasks, n) ensures Demand(tasks, name)(t) == Asked(actions, k, t, name) {
      AskedIsDemand(h, states, actions, k, t, name);
    }
    SumSame(Held(tasks, n), Demand(tasks, name), t => Asked(actions, k, t, name));
  }

  /** A worker is never overcommitted: what clients asked for the tasks it holds, added up, is within what it
      registered with, for every resource, and it holds no more tasks than it has slots. */
  lemma NeverOvercommitted(h: Bytes -> Digest, states: seq<State>, actions: seq<Action>, k: nat, n: NodeId, name: Name)
    returns (i: nat)
    requires IsRun(h, states, actions) && k < |states| && n in states[k].workers
    ensures i < k && Registers(states[i], actions[i], n)
    ensures Sum(Held(states[k].tasks, n), t => Asked(actions, k, t, name)) <= Get(actions[i].r.resources, name)
    ensures |Held(states[k].tasks, n)| <= actions[i].r.slots
  {
    hide Registers, IsRun, Asked, Load, OutputsMatch, HoldersMatch, LineageMatches, QueueMatches, ObjectsMatch;
    i := WorkerAsRegistered(h, states, actions, k, n);
    RunInv(h, states, actions, k);
    AskedAddsUp(h, states, actions, k, n, name);
    SlotsNeverOverdrawn(h, states, actions, k, n);
    assert Balanced(states[k].tasks, states[k].workers[n], n);
  }
}
