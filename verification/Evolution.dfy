/** How a single transition may change a task or an object: the edges of the task state diagram,
    and what an object's record keeps. */
module Evolution {
  import opened Types
  import opened Resources
  import opened Model
  import opened Invariants
  import opened Steps
  import opened Scheduling
  import opened Expiry
  import opened Reclaim
  import opened Runs

  // ---------------------------------------------------------------- edges

  /** The retry deadline after an attempt that ended at `now`. */
  function RetryAt(task: Task, now: int): int
  {
    SatAdd(now, RetryBackoff(task.attempt))
  }

  predicate SameTiming(a: Task, b: Task)
  {
    a.notBefore == b.notBefore && a.terminalSince == b.terminalSince
  }

  /** What a transition may rely on: the clock it reads, and whether it is one that hands out work or one that
      stamps finished tasks. */
  datatype Tick = Tick(now: int, hands: bool, stamps: bool)

  /** A booking begins: the next attempt, only once due. */
  predicate Assigns(a: Task, b: Task, k: Tick)
  {
    && k.hands && a.state.Runnable? && b.state.Assigned? && a.holder.None? && b.holder.Some?
    && b.attempt == a.attempt + 1 && a.attempt < a.maxAttempts && a.notBefore <= k.now && SameTiming(a, b)
  }

  /** A booking goes on: started, or asked to cancel. */
  predicate Continues(a: Task, b: Task)
  {
    && a.holder.Some? && b.holder == a.holder && b.attempt == a.attempt && SameTiming(a, b)
    && ((a.state.Assigned? && b.state.Running?)
        || ((a.state.Assigned? || a.state.Running?) && b.state.CancelRequested?))
  }

  /** A booking ends without a retry. */
  predicate Concludes(a: Task, b: Task)
  {
    && a.holder.Some? && b.holder.None? && b.attempt == a.attempt && SameTiming(a, b)
    && (((a.state.Assigned? || a.state.Running?) && (b.state.Succeeded? || b.state.Failed?))
        || (a.state.CancelRequested? && b.state.Cancelled?))
  }

  /** A booking ends and the task is queued again, not to run before its backoff has passed. */
  predicate RetriesAt(a: Task, b: Task, k: Tick)
  {
    && a.holder.Some? && b.holder.None? && b.attempt == a.attempt && a.attempt < a.maxAttempts
    && (a.state.Assigned? || a.state.Running?) && b.state.Runnable?
    && b.notBefore == RetryAt(a, k.now) && b.terminalSince == a.terminalSince
  }

  /** An unheld task is freed, or ends before it ever ran. */
  predicate Resolves(a: Task, b: Task)
  {
    && a.holder.None? && b.holder.None? && b.attempt == a.attempt && SameTiming(a, b)
    && ((a.state.Waiting? && (b.state.Runnable? || b.state.Failed?))
        || ((a.state.Waiting? || a.state.Runnable?) && b.state.Cancelled?))
  }

  /** A finished task that has no retention stamp gets one: the clock of the reaper. */
  predicate Stamps(a: Task, b: Task, k: Tick)
  {
    k.stamps && a.state.Terminal() && a.terminalSince == 0 && b == a.(terminalSince := k.now)
  }

  predicate Edge(a: Task, b: Task, k: Tick)
  {
    SameJob(a, b) &&
    (Assigns(a, b, k) || Continues(a, b) || Concludes(a, b) || RetriesAt(a, b, k) || Resolves(a, b) || Stamps(a, b, k))
  }

  predicate Moves(a: Task, b: Task, k: Tick)
  {
    a == b || Edge(a, b, k)
  }

  /** A task as submission enters it. */
  predicate Entered(task: Task)
  {
    && task.attempt == 0 && task.holder.None? && (task.state.Waiting? || task.state.Runnable?)
    && task.notBefore == 0 && task.terminalSince == 0
  }

  /** What a single transition does to the task table. */
  ghost predicate TasksEvolve(s: State, s': State, k: Tick)
  {
    && (forall t :: t in s.tasks && t in s'.tasks ==> Moves(s.tasks[t], s'.tasks[t], k))
    && (forall t :: t in s.tasks && t !in s'.tasks ==> s.tasks[t].state.Terminal())
    && (forall t :: t in s'.tasks && t !in s.tasks ==> t !in s.born && t in s'.born && Entered(s'.tasks[t]))
    && (forall t :: t in s.born ==> t in s'.born && s'.born[t] == s.born[t])
  }

  /** An object's contents are written once, by the step that makes it available. */
  predicate SameContents(a: ObjectRecord, b: ObjectRecord)
  {
    a.codec == b.codec && a.size == b.size && a.checksum == b.checksum && a.bytes == b.bytes
  }

  /** A resolved object keeps its contents; it can only be lost. */
  predicate ObjectMoves(a: ObjectRecord, b: ObjectRecord)
  {
    a.state.Reserved? ||
    (SameContents(a, b) && (b.state == a.state || (a.state.Available? && b.state.Lost?)))
  }

  ghost predicate ObjectsEvolve(s: State, s': State)
  {
    && (forall o :: o in s.objects && o in s'.objects ==> ObjectMoves(s.objects[o], s'.objects[o]))
    && (forall o :: o in s.objects && o !in s'.objects ==> Releasable(s, o))
  }

  function TickOf(a: Action): Tick
  {
    match a
    case DoRegister(_, _, _, now, _) => Tick(now, false, false)
    case DoHeartbeat(_, now, _) => Tick(now, false, false)
    case DoAssign(_, now, _) => Tick(now, true, false)
    case DoPoll(_, now, _) => Tick(now, true, false)
    case DoFail(_, _, _, _, now, _) => Tick(now, false, false)
    case DoExpire(now, _, _) => Tick(now, false, false)
    case DoReap(now, _) => Tick(now, false, true)
    case _ => UNCLOCKED
  }

  const UNCLOCKED: Tick := Tick(0, false, false)

  ghost predicate Evolves(s: State, s': State, k: Tick)
  {
    TasksEvolve(s, s', k) && ObjectsEvolve(s, s')
  }

  // ---------------------------------------------------------------- shapes of change

  /** No task changes and no object that was there changes. */
  ghost predicate Quiet(s: State, s': State)
  {
    && s'.tasks == s.tasks && s'.born == s.born
    && forall o :: o in s.objects ==> o in s'.objects && s'.objects[o] == s.objects[o]
  }

  lemma QuietEvolves(s: State, s': State, k: Tick)
    requires Quiet(s, s')
    ensures Evolves(s, s', k)
  {
  }

  /** A step that may still be followed by reconciliation: it left the waiting tasks alone,
      kept the tables' keys and brought no resolved object back to pending. */
  ghost predicate EvolvesSoFar(s: State, mid: State, k: Tick)
  {
    && Evolves(s, mid, k)
    && mid.tasks.Keys == s.tasks.Keys && mid.objects.Keys == s.objects.Keys
    && (forall t :: t in mid.waiting && t in s.tasks ==> mid.tasks[t] == s.tasks[t])
    && (forall o :: o in s.objects && !s.objects[o].state.Reserved? ==> !mid.objects[o].state.Reserved?)
  }

  /** A change to one task along an edge. */
  lemma OneEvolves(s: State, s': State, t: TaskId, k: Tick)
    requires ChangesOne(s, s', t) && LineageMatches(s) && s'.waiting <= s.waiting - {t}
    requires Edge(s.tasks[t], s'.tasks[t], k)
    requires s.objects[s.tasks[t].output].state.Reserved?
    ensures EvolvesSoFar(s, s', k)
  {
  }

  lemma SettleTasksEvolve(s: State, mid: State, order: seq<TaskId>, k: Tick)
    requires SetsMatch(mid) && HoldersMatch(mid) && EvolvesSoFar(s, mid, k)
    ensures TasksEvolve(s, Settle(mid, order), k)
  {
    var s' := Settle(mid, order);
    forall t | t in s.tasks && t in s'.tasks ensures Moves(s.tasks[t], s'.tasks[t], k) {
      assert t in mid.tasks.Keys;
      if t in mid.waiting {
        assert mid.tasks[t].state.Waiting? && mid.tasks[t].holder.None?;
        assert s'.tasks[t] == SettledTask(mid.tasks[t], t in Doomed(mid), t in Ready(mid));
      } else {
        assert s'.tasks[t] == mid.tasks[t];
      }
    }
    assert s'.tasks.Keys == mid.tasks.Keys;
  }

  lemma SettleObjectsEvolve(s: State, mid: State, order: seq<TaskId>, k: Tick)
    requires OutputsMatch(mid) && SetsMatch(mid) && EvolvesSoFar(s, mid, k)
    ensures ObjectsEvolve(s, Settle(mid, order))
  {
    var s' := Settle(mid, order);
    forall o | o in s.objects && o in s'.objects ensures ObjectMoves(s.objects[o], s'.objects[o]) {
      assert o in mid.objects.Keys;
      if o in OutputsOf(mid.tasks, Doomed(mid)) {
        assert mid.objects[o].state.Reserved?;
      } else {
        assert s'.objects[o] == mid.objects[o];
      }
    }
    assert s'.objects.Keys == mid.objects.Keys;
  }

  /** Reconciliation after such a step adds one edge only to tasks that have none yet. */
  lemma SettleEvolves(s: State, mid: State, order: seq<TaskId>, k: Tick, s': State)
    requires Consistent(mid) && EvolvesSoFar(s, mid, k)
    requires s' == Bump(Settle(mid, order))
    ensures Evolves(s, s', k)
  {
    SettleTasksEvolve(s, mid, order, k);
    SettleObjectsEvolve(s, mid, order, k);
  }

  lemma BumpEvolves(s: State, mid: State, k: Tick)
    requires EvolvesSoFar(s, mid, k)
    ensures Evolves(s, Bump(mid), k)
  {
  }

  // ---------------------------------------------------------------- one lemma per transition

  lemma StartedEvolves(s: State, i: WorkerIdentity, f: TaskFence, s': State)
    requires Inv(s) && s' == Started(s, i, f).state
    ensures Evolves(s, s', UNCLOCKED)
  {
    if s' != s {
      OneEvolves(s, s', f.task, UNCLOCKED);
    } else {
      QuietEvolves(s, s', UNCLOCKED);
    }
  }

  lemma CompleteMidEvolves(s: State, h: Bytes -> Digest, i: WorkerIdentity, r: TaskCompletion)
    requires Inv(s) && CompleteVerdict(s, h, i, r).Apply?
    ensures EvolvesSoFar(s, CompleteMid(s, i, r), UNCLOCKED)
  {
    var mid := CompleteMid(s, i, r);
    assert mid.waiting <= s.waiting - {r.fence.task};
    OneEvolves(s, mid, r.fence.task, UNCLOCKED);
  }

  lemma CompleteEvolves(s: State, h: Bytes -> Digest, i: WorkerIdentity, r: TaskCompletion, order: seq<TaskId>,
                        s': State)
    requires Inv(s) && s' == Complete(s, h, i, r, order).state
    ensures Evolves(s, s', UNCLOCKED)
  {
    hide Consistent, Settled, Settle, Evolves, EvolvesSoFar;
    if CompleteVerdict(s, h, i, r).Apply? {
      CompleteMidKeeps(s, h, i, r);
      CompleteMidEvolves(s, h, i, r);
      SettleEvolves(s, CompleteMid(s, i, r), order, UNCLOCKED, s');
    } else {
      QuietEvolves(s, s', UNCLOCKED);
    }
  }

  lemma FailMidEvolves(s: State, i: WorkerIdentity, f: TaskFence, message: string, kind: FailureClass, now: int)
    requires Inv(s) && FailVerdict(s, i, f).Apply?
    ensures EvolvesSoFar(s, FailMid(s, i, f, message, kind, now), Tick(now, false, false))
  {
    hide Conserved, QueueMatches, ObjectsMatch, Settled;
    var mid := FailMid(s, i, f, message, kind, now);
    var t := f.task;
    assert mid.waiting <= s.waiting - {t};
    if Retries(s.tasks[t], kind) {
      assert RetriesAt(s.tasks[t], mid.tasks[t], Tick(now, false, false));
    } else {
      assert Concludes(s.tasks[t], mid.tasks[t]);
    }
    OneEvolves(s, mid, t, Tick(now, false, false));
  }

  lemma FailEvolves(s: State, i: WorkerIdentity, f: TaskFence, message: string, kind: FailureClass, now: int,
                    order: seq<TaskId>, s': State)
    requires Inv(s) && s' == Fail(s, i, f, message, kind, now, order).state
    ensures Evolves(s, s', Tick(now, false, false))
  {
    hide Consistent, Settled, Settle, Evolves, EvolvesSoFar;
    if FailVerdict(s, i, f).Apply? {
      FailMidKeeps(s, i, f, message, kind, now);
      FailMidEvolves(s, i, f, message, kind, now);
      if Retries(s.tasks[f.task], kind) {
        BumpEvolves(s, FailMid(s, i, f, message, kind, now), Tick(now, false, false));
      } else {
        SettleEvolves(s, FailMid(s, i, f, message, kind, now), order, Tick(now, false, false), s');
      }
    } else {
      QuietEvolves(s, s', Tick(now, false, false));
    }
  }

  lemma AckMidEvolves(s: State, i: WorkerIdentity, f: TaskFence)
    requires Inv(s) && AckVerdict(s, i, f).Apply?
    ensures EvolvesSoFar(s, AckMid(s, i, f), UNCLOCKED)
  {
    var mid := AckMid(s, i, f);
    assert mid.waiting <= s.waiting - {f.task};
    OneEvolves(s, mid, f.task, UNCLOCKED);
  }

  lemma AckCancelEvolves(s: State, i: WorkerIdentity, f: TaskFence, order: seq<TaskId>, s': State)
    requires Inv(s) && s' == AckCancel(s, i, f, order).state
    ensures Evolves(s, s', UNCLOCKED)
  {
    hide Consistent, Settled, Settle, Evolves, EvolvesSoFar;
    if AckVerdict(s, i, f).Apply? {
      AckMidKeeps(s, i, f);
      AckMidEvolves(s, i, f);
      SettleEvolves(s, AckMid(s, i, f), order, UNCLOCKED, s');
    } else {
      QuietEvolves(s, s', UNCLOCKED);
    }
  }

  lemma CancelMidEvolves(s: State, t: TaskId)
    requires Inv(s) && CancelVerdict(s, t).Apply? && s.tasks[t].holder.None?
    ensures EvolvesSoFar(s, CancelMid(s, t), UNCLOCKED)
  {
    OneEvolves(s, CancelMid(s, t), t, UNCLOCKED);
  }

  lemma CancelRequestEvolves(s: State, t: TaskId, order: seq<TaskId>, s': State)
    requires Inv(s) && CancelVerdict(s, t).Apply? && s.tasks[t].holder.Some? && s' == Cancel(s, t, order).state
    ensures Evolves(s, s', UNCLOCKED)
  {
    OneEvolves(s, s', t, UNCLOCKED);
  }

  lemma CancelEvolves(s: State, t: TaskId, order: seq<TaskId>, s': State)
    requires Inv(s) && s' == Cancel(s, t, order).state
    ensures Evolves(s, s', UNCLOCKED)
  {
    hide Consistent, Settled, Settle, Evolves, EvolvesSoFar;
    if CancelVerdict(s, t).Apply? {
      if s.tasks[t].holder.Some? {
        CancelRequestEvolves(s, t, order, s');
      } else {
        CancelMidKeeps(s, t);
        CancelMidEvolves(s, t);
        SettleEvolves(s, CancelMid(s, t), order, UNCLOCKED, s');
      }
    } else {
      QuietEvolves(s, s', UNCLOCKED);
    }
  }

  lemma BookEvolves(s: State, node: NodeId, now: int, lease: LeaseId, t: TaskId, s': State)
    requires OutputsMatch(s) && SetsMatch(s) && HoldersMatch(s) && AttemptsMatch(s) && LineageMatches(s)
    requires node in s.workers && Servable(s, s.workers[node], now, t)
    requires s' == Book(s, node, t, lease).(runnable := s'.runnable)
    ensures Evolves(s, s', Tick(now, true, false))
  {
    assert Assigns(s.tasks[t], s'.tasks[t], Tick(now, true, false));
    assert s'.objects == s.objects;
    OneEvolves(s, s', t, Tick(now, true, false));
  }

  lemma AssignEvolves(s: State, node: NodeId, now: int, lease: LeaseId, s': State)
    requires Inv(s) && s' == AssignNext(s, node, now, lease).state
    ensures Evolves(s, s', Tick(now, true, false))
  {
    if node in s.workers && s.workers[node].state.Alive? && s.workers[node].freeSlots != 0 {
      AssignNextState(s, node, now, lease);
      var chosen := Chosen(FullScan(s, node, s.workers[node], now));
      if chosen.Some? {
        BookEvolves(s, node, now, lease, chosen.value, s');
      } else {
        QuietEvolves(s, s', Tick(now, true, false));
      }
    } else {
      QuietEvolves(s, s', Tick(now, true, false));
    }
  }

  /** Pending deletes play no part in how tasks and objects evolve. */
  lemma EvolvesWithoutDeletes(s: State, t: State, s': State, k: Tick)
    requires t == s.(pendingDeletes := t.pendingDeletes) && Evolves(t, s', k)
    ensures Evolves(s, s', k)
  {
    forall o | Releasable(t, o) ensures Releasable(s, o) {
      assert InUse(t, o) == InUse(s, o);
    }
  }

  lemma PollEvolves(s: State, i: WorkerIdentity, now: int, lease: LeaseId, s': State)
    requires Inv(s) && s' == PollState(s, i, now, lease)
    ensures Evolves(s, s', Tick(now, true, false))
  {
    var t := TakeDeletes(s, i.node).0;
    if TakeDeletes(s, i.node).1 != [] || s' == t {
      QuietEvolves(s, s', Tick(now, true, false));
    } else {
      DeletesKeep(s, t);
      AssignEvolves(t, i.node, now, lease, s');
      EvolvesWithoutDeletes(s, t, s', Tick(now, true, false));
    }
  }

  lemma EvictTasksEvolve(s: State, now: int, retried: seq<TaskId>, mid: State)
    requires HoldersMatch(s) && mid == EvictAll(s, now, retried)
    ensures TasksEvolve(s, mid, Tick(now, false, false)) && mid.tasks.Keys == s.tasks.Keys
    ensures forall t :: t in s.tasks && s.tasks[t].state.Waiting? ==> mid.tasks[t] == s.tasks[t]
  {
    var held := HeldBy(s, Expired(s, now));
    forall t | t in s.tasks && t in mid.tasks ensures Moves(s.tasks[t], mid.tasks[t], Tick(now, false, false)) {
      if t in held {
        assert s.tasks[t].state.InFlight();
        EvictedTaskIs(s.tasks[t], now);
      }
    }
  }

  lemma EvictedAreReserved(s: State, held: set<TaskId>, o: ObjectId)
    requires OutputsMatch(s) && o in s.objects && !s.objects[o].state.Reserved?
    requires forall t :: t in held ==> t in s.tasks && s.tasks[t].state.InFlight()
    ensures o !in EvictedOutputs(s, held, true) && o !in EvictedOutputs(s, held, false)
  {
  }

  lemma EvictObjectsEvolve(s: State, now: int, retried: seq<TaskId>, mid: State)
    requires OutputsMatch(s) && HoldersMatch(s) && mid == EvictAll(s, now, retried)
    ensures ObjectsEvolve(s, mid) && mid.objects.Keys == s.objects.Keys
    ensures forall o :: o in s.objects && !s.objects[o].state.Reserved? ==> !mid.objects[o].state.Reserved?
  {
    var held := HeldBy(s, Expired(s, now));
    forall o | o in s.objects && !s.objects[o].state.Reserved?
      ensures ObjectMoves(s.objects[o], mid.objects[o]) && !mid.objects[o].state.Reserved?
    {
      EvictedAreReserved(s, held, o);
    }
  }

  lemma ExpireEvolves(s: State, h: Bytes -> Digest, now: int, retried: seq<TaskId>, order: seq<TaskId>, s': State)
    requires Inv(s) && Legal(s, h, DoExpire(now, retried, order)) && s' == ExpireWorkers(s, now, retried, order)
    ensures Evolves(s, s', Tick(now, false, false))
  {
    if Expired(s, now) != {} {
      var mid := EvictAll(s, now, retried);
      EvictKeeps(s, Expired(s, now), HeldBy(s, Expired(s, now)), now, retried);
      EvictTasksEvolve(s, now, retried, mid);
      EvictObjectsEvolve(s, now, retried, mid);
      assert mid.waiting <= s.waiting;
      SettleEvolves(s, mid, order, Tick(now, false, false), s');
    } else {
      QuietEvolves(s, s', Tick(now, false, false));
    }
  }

  lemma ReleaseEvolves(s: State, id: ObjectId, s': State)
    requires Inv(s) && s' == ReleaseObject(s, id).state
    ensures Evolves(s, s', UNCLOCKED)
  {
    if Releasable(s, id) {
      forall t | t in s.tasks ensures t !in s'.tasks ==> s.tasks[t].state.Terminal() {
        RemovedTasksAreDone(s, id, t);
      }
    } else {
      QuietEvolves(s, s', UNCLOCKED);
    }
  }

  lemma StampInUse(s: State, now: int, o: ObjectId)
    ensures InUse(Stamp(s, now), o) == InUse(s, o)
  {
    var s' := Stamp(s, now);
    if InUse(s, o) {
      var t :| t in s.tasks && !s.tasks[t].state.Terminal() && o in Deps(s.tasks[t]);
      assert t in s'.tasks && s'.tasks[t] == s.tasks[t];
    }
    if InUse(s', o) {
      var t :| t in s'.tasks && !s'.tasks[t].state.Terminal() && o in Deps(s'.tasks[t]);
      assert t in s.tasks && s'.tasks[t] == s.tasks[t];
    }
  }

  lemma {:induction false} ReleaseAllBorn(s: State, order: seq<ObjectId>)
    ensures ReleaseAll(s, order).0.born == s.born
    decreases |order|
  {
    if order != [] {
      ReleaseAllBorn(s, order[..|order| - 1]);
    }
  }

  lemma DueEvolves(s: State, now: int, due: seq<ObjectId>, s': State)
    requires OutputsMatch(s) && ObjectsMatch(s) && IsOrder(due, DueOutputs(Stamp(s, now), now))
    requires s' == Reap(s, now, due).0
    ensures Evolves(s, s', Tick(now, false, true))
  {
    var stamped := Stamp(s, now);
    ReapExact(s, now, due);
    ReleaseAllBorn(stamped, due);
    forall t | t in s.tasks
      ensures t in s'.tasks ==> Moves(s.tasks[t], s'.tasks[t], Tick(now, false, true))
      ensures t !in s'.tasks ==> s.tasks[t].state.Terminal()
    {
      assert stamped.tasks[t] == StampedTask(s.tasks[t], now);
    }
    forall o | o in s.objects && o !in s'.objects ensures Releasable(s, o) {
      StampTables(s, now);
      DueAreReleasable(stamped, now);
      StampInUse(s, now, o);
    }
  }

  lemma ReapEvolves(s: State, now: int, due: seq<ObjectId>, s': State)
    requires Inv(s) && IsOrder(due, DueOutputs(Stamp(s, now), now)) && s' == Reap(s, now, due).0
    ensures Evolves(s, s', Tick(now, false, true))
  {
    DueEvolves(s, now, due, s');
  }

  lemma EnterEvolves(s: State, id: TaskId, task: Task, codec: Codec, s': State)
    requires LineageMatches(s) && id !in s.born && task.output !in s.objects && Entered(task)
    requires s' == AddTask(s, id, task, codec)
    ensures Evolves(s, s', UNCLOCKED)
  {
  }

  lemma SubmitEvolves(s: State, op: OperationKey, args: seq<TaskArg>, resources: ResourceSet, maxAttempts: int,
                      id: TaskId, output: ObjectId, s': State)
    requires Inv(s) && id !in s.born && output !in s.objects
    requires s' == Submit(s, op, args, resources, maxAttempts, id, output).state
    ensures Evolves(s, s', UNCLOCKED)
  {
    hide Evolves, LineageMatches, SubmitCheck, AddTask;
    var check := SubmitCheck(s, op, args, resources, maxAttempts);
    if check.Ok? && op in s.operations {
      EnterEvolves(s, id, NewTask(op, args, output, resources, maxAttempts, check.value),
                   s.operations[op].outputCodec, s');
    } else {
      QuietEvolves(s, s', UNCLOCKED);
    }
  }

  lemma RegisterEvolves(s: State, r: RegisterWorker, addrOk: bool, session: SessionId, now: int, leaseMs: int,
                        s': State, k: Tick)
    requires s' == Register(s, r, addrOk, session, now, leaseMs).state
    ensures Evolves(s, s', k)
  {
    QuietEvolves(s, s', k);
  }

  lemma WorkerEvolves(s: State, h: Bytes -> Digest, a: Action, s': State)
    requires (a.DoHeartbeat? || a.DoDrain? || a.DoTakeDeletes?) && s' == Next(s, h, a)
    ensures Evolves(s, s', TickOf(a))
  {
    assert s'.tasks == s.tasks && s'.born == s.born && s'.objects == s.objects;
    QuietEvolves(s, s', TickOf(a));
  }

  lemma AdmitEvolves(s: State, id: ObjectId, codec: Codec, size: int, checksum: Digest, bytes: Option<Bytes>, s': State,
                     k: Tick)
    requires s' == Admit(s, id, codec, size, checksum, bytes).state
    ensures Evolves(s, s', k)
  {
    QuietEvolves(s, s', k);
  }

  lemma HolderEvolves(s: State, h: Bytes -> Digest, a: Action, s': State)
    requires Inv(s) && FromHolder(a) && s' == Next(s, h, a)
    ensures Evolves(s, s', TickOf(a))
  {
    hide Inv, Evolves;
    match a
    case DoStarted(i, f) => StartedEvolves(s, i, f, s');
    case DoComplete(i, report, order) => CompleteEvolves(s, h, i, report, order, s');
    case DoFail(i, f, message, kind, now, order) => FailEvolves(s, i, f, message, kind, now, order, s');
    case DoAckCancel(i, f, order) => AckCancelEvolves(s, i, f, order, s');
  }

  /** Every legal transition moves each task along at most one edge of the state diagram, removes only
      finished tasks and unneeded objects, and never rewrites the contents of a resolved object. */
  lemma NextEvolves(s: State, h: Bytes -> Digest, a: Action, s': State)
    requires Inv(s) && Legal(s, h, a) && s' == Next(s, h, a)
    ensures Evolves(s, s', TickOf(a))
  {
    hide Inv, Evolves;
    if FromHolder(a) {
      HolderEvolves(s, h, a, s');
    } else {
      match a
      case DoPut(codec, bytes) => AdmitEvolves(s, h(bytes), codec, |bytes|, h(bytes), Some(bytes), s', TickOf(a));
      case DoPutMeta(id, codec, size, checksum) => AdmitEvolves(s, id, codec, size, checksum, None, s', TickOf(a));
      case DoSubmit(op, args, resources, maxAttempts, task, output) =>
        SubmitEvolves(s, op, args, resources, maxAttempts, task, output, s');
      case DoAssign(node, now, lease) => AssignEvolves(s, node, now, lease, s');
      case DoPoll(i, now, lease) => PollEvolves(s, i, now, lease, s');
      case DoCancel(task, order) => CancelEvolves(s, task, order, s');
      case DoRelease(id) => ReleaseEvolves(s, id, s');
      case DoExpire(now, retried, order) => ExpireEvolves(s, h, now, retried, order, s');
      case DoReap(now, due) => ReapEvolves(s, now, due, s');
      case DoRegister(r, addrOk, session, now, leaseMs) =>
        RegisterEvolves(s, r, addrOk, session, now, leaseMs, s', TickOf(a));
      case _ => WorkerEvolves(s, h, a, s');
    }
  }
}
