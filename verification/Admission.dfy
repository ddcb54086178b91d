/** Registration, object admission and task submission keep the invariant. */
module Admission {
  import opened Types
  import opened Resources
  import opened Model
  import opened Invariants
  import opened Steps

  // ---------------------------------------------------------------- workers

  /** Only the worker table changes, and no registered worker leaves or changes its session. */
  ghost predicate OnlyWorkers(s: State, s': State)
  {
    && s'.tasks == s.tasks && s'.objects == s.objects && s'.runnable == s.runnable
    && s'.waiting == s.waiting && s'.cancelRequested == s.cancelRequested && s'.born == s.born
    && s'.epoch == s.epoch && s.operations.Keys <= s'.operations.Keys
    && (forall n :: n in s.workers ==> n in s'.workers && s'.workers[n].identity == s.workers[n].identity)
  }

  lemma SameTablesLineage(s: State, s': State)
    requires LineageMatches(s) && QueueMatches(s)
    requires s'.tasks == s.tasks && s.objects.Keys <= s'.objects.Keys && s'.born == s.born && s'.runnable == s.runnable
    ensures LineageMatches(s') && QueueMatches(s')
  {
    assert forall t, u :: Feeds(s', u, t) ==> Feeds(s, u, t);
    assert forall t :: IsRunnable(s', t) ==> IsRunnable(s, t);
  }

  lemma OnlyWorkersKeeps(s: State, s': State)
    requires Inv(s) && OnlyWorkers(s, s') && WorkersMatch(s') && Conserved(s')
    ensures Inv(s')
  {
    SettledSame(s, s');
    SameTablesLineage(s, s');
  }

  /** A worker record refreshed in anything but its session and bookings. */
  predicate SameBooks(w: Worker, w': Worker)
  {
    && w'.identity == w.identity && w'.slots == w.slots && w'.freeSlots == w.freeSlots
    && w'.total == w.total && w'.available == w.available
  }

  ghost predicate Refreshes(s: State, s': State, n: NodeId)
  {
    && n in s.workers && n in s'.workers
    && SameBooks(s.workers[n], s'.workers[n]) && !s'.workers[n].state.Dead?
    && s' == s.(workers := s.workers[n := s'.workers[n]], revision := s'.revision)
  }

  lemma RefreshKeeps(s: State, s': State, n: NodeId)
    requires Inv(s) && Refreshes(s, s', n)
    ensures Inv(s')
  {
    forall m | m in s'.workers ensures Balanced(s'.tasks, s'.workers[m], m) {
      assert Balanced(s.tasks, s.workers[m], m);
    }
    OnlyWorkersKeeps(s, s');
  }

  lemma FreshWorkerBalanced(s: State, n: NodeId, w: Worker)
    requires HoldersMatch(s) && n !in s.workers && w.freeSlots == w.slots && w.available == w.total
    ensures Balanced(s.tasks, w, n)
  {
    forall t | t in s.tasks ensures t !in Held(s.tasks, n) {
    }
    assert Held(s.tasks, n) == {};
    assert forall name :: Load(s.tasks, n, name) == 0;
  }

  /** A worker joins with everything free. */
  ghost predicate Joins(s: State, s': State, n: NodeId)
  {
    && n !in s.workers && n in s'.workers
    && s' == s.(workers := s.workers[n := s'.workers[n]], operations := s'.operations, revision := s'.revision)
    && s.operations.Keys <= s'.operations.Keys
    && var w := s'.workers[n];
       w.freeSlots == w.slots && w.available == w.total && !w.state.Dead?
       && w.identity.node == n && w.identity.coordinatorEpoch == s.epoch
  }

  lemma JoinKeeps(s: State, s': State, n: NodeId)
    requires Inv(s) && Joins(s, s', n)
    ensures Inv(s')
  {
    forall m | m in s'.workers ensures Balanced(s'.tasks, s'.workers[m], m) {
      if m == n {
        FreshWorkerBalanced(s, n, s'.workers[n]);
      } else {
        assert Balanced(s.tasks, s.workers[m], m);
      }
    }
    OnlyWorkersKeeps(s, s');
  }

  lemma RenewedRefreshes(s: State, n: NodeId, now: int, leaseMs: int)
    requires n in s.workers && !s.workers[n].state.Dead?
    ensures Refreshes(s, Renewed(s, n, now, leaseMs), n)
  {
  }

  lemma JoinedJoins(s: State, r: RegisterWorker, ops: map<OperationKey, OperationDescriptor>, session: SessionId,
                    now: int, leaseMs: int)
    requires r.node !in s.workers
    ensures Joins(s, Joined(s, r, ops, session, now, leaseMs), r.node)
  {
  }

  lemma RegisterKeeps(s: State, r: RegisterWorker, addrOk: bool, session: SessionId, now: int, leaseMs: int, s': State)
    requires s' == Register(s, r, addrOk, session, now, leaseMs).state
    ensures Inv(s) ==> Inv(s')
  {
    if Inv(s) {
      var ops := CollectOperations(s.operations, r.operations);
      if s' != s {
        if r.node in s.workers {
          RenewedRefreshes(s, r.node, now, leaseMs);
          RefreshKeeps(s, s', r.node);
        } else {
          JoinedJoins(s, r, ops.value, session, now, leaseMs);
          JoinKeeps(s, s', r.node);
        }
      }
    }
  }

  lemma HeartbeatKeeps(s: State, i: WorkerIdentity, now: int, leaseMs: int, s': State)
    requires s' == Heartbeat(s, i, now, leaseMs).state
    ensures Inv(s) ==> Inv(s')
  {
    if Inv(s) {
      if IdentityOk(s, i) {
        RefreshKeeps(s, s', i.node);
      }
    }
  }

  lemma DrainKeeps(s: State, i: WorkerIdentity, s': State)
    requires s' == Drain(s, i).state
    ensures Inv(s) ==> Inv(s')
  {
    if Inv(s) {
      if IdentityOk(s, i) {
        RefreshKeeps(s, s', i.node);
      }
    }
  }

  // ---------------------------------------------------------------- objects

  /** Adding an object no unfinished task names leaves every waiting task as it was. */
  lemma SettledWithNewObject(s: State, s': State, id: ObjectId)
    requires Settled(s) && SetsMatch(s) && LineageMatches(s)
    requires id !in s.objects && id in s'.objects && s'.objects == s.objects[id := s'.objects[id]]
    requires forall t :: t in s.waiting ==> t in s'.tasks && s'.tasks[t] == s.tasks[t]
    ensures forall t :: t in s.waiting ==> !HasBroken(s', t) && !AllAvailable(s', t)
  {
    forall t | t in s.waiting ensures !HasBroken(s', t) && !AllAvailable(s', t) {
      assert !HasBroken(s, t) && !AllAvailable(s, t);
      assert Deps(s.tasks[t]) <= s.objects.Keys;
      assert forall o :: o in Deps(s.tasks[t]) ==>
        Broken(s', o) == Broken(s, o) && IsAvailable(s', o) == IsAvailable(s, o);
    }
  }

  ghost predicate AddsObject(s: State, s': State, id: ObjectId)
  {
    && id !in s.objects && |s.objects| < MAX_OBJECTS && id in s'.objects
    && s' == s.(objects := s.objects[id := s'.objects[id]], revision := s'.revision)
    && s'.objects[id].state.Available? && Complete?(s'.objects[id])
  }

  lemma AddsObjectKeeps(s: State, s': State, id: ObjectId)
    requires Inv(s) && AddsObject(s, s', id)
    ensures Inv(s')
  {
    SettledWithNewObject(s, s', id);
    SameTablesLineage(s, s');
    forall n | n in s'.workers ensures Balanced(s'.tasks, s'.workers[n], n) {
      assert Balanced(s.tasks, s.workers[n], n);
    }
  }

  lemma AdmitKeeps(s: State, id: ObjectId, codec: Codec, size: int, checksum: Digest, bytes: Option<Bytes>, s': State)
    requires s' == Admit(s, id, codec, size, checksum, bytes).state
    ensures Inv(s) ==> Inv(s')
  {
    if Inv(s) {
      if s' != s {
        AddsObjectKeeps(s, s', id);
      }
    }
  }

  // ---------------------------------------------------------------- submission

  /** An accepted argument list names only objects that are present and can still become available,
      and it waits exactly when one of them is reserved. */
  lemma {:induction false} ScanArgsMeans(s: State, d: OperationDescriptor, args: seq<TaskArg>)
    requires ScanArgs(s, d, args).Ok?
    ensures forall k :: 0 <= k < |args| && args[k].ObjectArg? ==> !Broken(s, args[k].id)
    ensures ScanArgs(s, d, args).value <==>
      exists k :: 0 <= k < |args| && args[k].ObjectArg? && !IsAvailable(s, args[k].id)
    decreases |args|
  {
    if args != [] {
      var init := args[..|args| - 1];
      ScanArgsMeans(s, d, init);
      assert forall k :: 0 <= k < |init| ==> args[k] == init[k];
      if ScanArgs(s, d, init).value {
        var k :| 0 <= k < |init| && init[k].ObjectArg? && !IsAvailable(s, init[k].id);
        assert args[k].ObjectArg? && !IsAvailable(s, args[k].id);
      } else if ScanArgs(s, d, args).value {
        assert !IsAvailable(s, args[|args| - 1].id);
      }
    }
  }

  lemma SubmittedDeps(s: State, d: OperationDescriptor, args: seq<TaskArg>, task: Task)
    requires ScanArgs(s, d, args).Ok? && task.args == args
    ensures forall o :: o in Deps(task) ==> !Broken(s, o)
    ensures ScanArgs(s, d, args).value <==> exists o :: o in Deps(task) && !IsAvailable(s, o)
  {
    ScanArgsMeans(s, d, args);
    forall o | o in Deps(task) ensures !Broken(s, o) {
      var arg :| arg in task.args && arg.ObjectArg? && arg.id == o;
      var k :| 0 <= k < |args| && args[k] == arg;
    }
    if ScanArgs(s, d, args).value {
      var k :| 0 <= k < |args| && args[k].ObjectArg? && !IsAvailable(s, args[k].id);
      assert args[k] in task.args;
      assert args[k].id in Deps(task);
    }
    forall o | o in Deps(task) && !IsAvailable(s, o) ensures ScanArgs(s, d, args).value {
      var arg :| arg in task.args && arg.ObjectArg? && arg.id == o;
      var k :| 0 <= k < |args| && args[k] == arg;
    }
  }

  /** What makes a task fit to enter the tables under fresh ids. */
  ghost predicate Enterable(s: State, id: TaskId, task: Task)
  {
    && id !in s.born && task.output !in s.objects
    && task.operation in s.operations
    && |s.tasks| < MAX_TASKS && |s.objects| < MAX_OBJECTS
    && (task.state.Waiting? || task.state.Runnable?)
    && task.holder.None? && task.attempt == 0 && task.maxAttempts > 0
    && (forall o :: o in Deps(task) ==> !Broken(s, o))
    && (task.state.Waiting? <==> exists o :: o in Deps(task) && !IsAvailable(s, o))
  }

  lemma EnterTables(s: State, id: TaskId, task: Task, codec: Codec)
    requires OutputsMatch(s) && ObjectsMatch(s) && LineageMatches(s) && Bounded(s) && Enterable(s, id, task)
    ensures var s' := AddTask(s, id, task, codec); OutputsMatch(s') && ObjectsMatch(s') && Bounded(s')
  {
    var s' := AddTask(s, id, task, codec);
    assert id !in s.tasks;
    hide LineageMatches;
    forall o | o in s'.objects && s'.objects[o].state.Reserved?
      ensures o in OutputsOf(s'.tasks, s'.tasks.Keys)
    {
      if o == task.output {
        assert id in s'.tasks.Keys && s'.tasks[id].output == o;
      } else {
        var u :| u in s.tasks && s.tasks[u].output == o;
        assert u in s'.tasks.Keys && s'.tasks[u].output == o;
      }
    }
  }

  lemma EnterLineage(s: State, id: TaskId, task: Task, codec: Codec)
    requires OutputsMatch(s) && LineageMatches(s) && Enterable(s, id, task)
    ensures LineageMatches(AddTask(s, id, task, codec))
  {
    var s' := AddTask(s, id, task, codec);
    assert id !in s.tasks;
    assert |s'.born| == |s.born| + 1;
    forall t, u | Feeds(s', u, t) && !s'.tasks[t].state.Terminal() ensures s'.born[u] < s'.born[t] {
      if t == id {
        assert u != id;
      } else {
        assert Deps(s.tasks[t]) <= s.objects.Keys;
        assert u != id;
        assert Feeds(s, u, t);
      }
    }
  }

  lemma EnterIndices(s: State, id: TaskId, task: Task, codec: Codec)
    requires SetsMatch(s) && QueueMatches(s) && LineageMatches(s) && Enterable(s, id, task)
    ensures var s' := AddTask(s, id, task, codec); SetsMatch(s') && QueueMatches(s')
  {
    var s' := AddTask(s, id, task, codec);
    assert id !in s.tasks && id !in s.runnable;
    if task.state.Runnable? {
      NoDuplicatesConcat(s.runnable, [id]);
    }
    forall t | IsRunnable(s', t) ensures t in s'.runnable {
      if t != id {
        assert IsRunnable(s, t);
      }
    }
  }

  lemma EnterBookings(s: State, id: TaskId, task: Task, codec: Codec)
    requires HoldersMatch(s) && WorkersMatch(s) && Conserved(s) && AttemptsMatch(s) && LineageMatches(s)
    requires Enterable(s, id, task)
    ensures var s' := AddTask(s, id, task, codec);
      HoldersMatch(s') && WorkersMatch(s') && Conserved(s') && AttemptsMatch(s')
  {
    hide Conserved;
    var s' := AddTask(s, id, task, codec);
    assert id !in s.tasks;
    EnterConserves(s, id, task, s');
  }

  lemma EnterConserves(s: State, id: TaskId, task: Task, s': State)
    requires Conserved(s) && id !in s.tasks && task.holder.None?
    requires s'.tasks == s.tasks[id := task] && s'.workers == s.workers
    ensures Conserved(s')
  {
    hide Balanced;
    forall n | n in s'.workers ensures Balanced(s'.tasks, s'.workers[n], n) {
      assert Held(s.tasks, n) == Held(s'.tasks, n);
      BalancedSame(s.tasks, s'.tasks, s.workers[n], n);
    }
  }

  lemma EnterSettled(s: State, id: TaskId, task: Task, codec: Codec)
    requires Settled(s) && SetsMatch(s) && LineageMatches(s) && Enterable(s, id, task)
    ensures Settled(AddTask(s, id, task, codec))
  {
    var s' := AddTask(s, id, task, codec);
    assert id !in s.tasks;
    SettledWithNewObject(s, s', task.output);
    if task.state.Waiting? {
      assert forall o :: o in Deps(task) ==> Broken(s', o) == Broken(s, o) && IsAvailable(s', o) == IsAvailable(s, o);
      assert s'.tasks[id] == task;
    }
  }

  lemma SubmitKeeps(s: State, op: OperationKey, args: seq<TaskArg>, resources: ResourceSet, maxAttempts: int,
                    id: TaskId, output: ObjectId, s': State)
    requires id !in s.born && output !in s.objects && 0 <= maxAttempts
    requires s' == Submit(s, op, args, resources, maxAttempts, id, output).state
    ensures Inv(s) ==> Inv(s')
  {
    if Inv(s) {
      var check := SubmitCheck(s, op, args, resources, maxAttempts);
      if check.Ok? {
        var d := s.operations[op];
        var task := NewTask(op, args, output, resources, maxAttempts, check.value);
        SubmittedDeps(s, d, args, task);
        EnterTables(s, id, task, d.outputCodec);
        EnterLineage(s, id, task, d.outputCodec);
        EnterIndices(s, id, task, d.outputCodec);
        EnterBookings(s, id, task, d.outputCodec);
        EnterSettled(s, id, task, d.outputCodec);
      }
    }
  }
}
