/** What the coordinator's methods rely on. The invariant stands as a hypothesis here so that a method
    need not unfold it. */
module Refinement {
  import opened Types
  import opened Model
  import opened Invariants
  import opened Steps
  import opened Scheduling
  import opened Eviction
  import opened Runs

  lemma OutputPresent(s: State, t: TaskId)
    requires t in s.tasks
    ensures Inv(s) ==> s.tasks[t].output in s.objects
  {
  }

  /** `s` with task `id` and its output rewritten. */
  function Concluded(s: State, id: TaskId, task: Task, record: ObjectRecord): State
  {
    s.(tasks := s.tasks[id := task], objects := s.objects[task.output := record])
  }

  lemma CompleteMidTables(s: State, h: Bytes -> Digest, i: WorkerIdentity, r: TaskCompletion, mid: State)
    requires CompleteVerdict(s, h, i, r).Apply? && mid == CompleteMid(s, i, r)
    ensures Inv(s) ==> OutputsMatch(mid) && SetsMatch(mid)
  {
    if Inv(s) {
      CompleteMidKeeps(s, h, i, r);
    }
  }

  lemma FailMidTables(s: State, i: WorkerIdentity, f: TaskFence, message: string, kind: FailureClass, now: int,
                      mid: State)
    requires FailVerdict(s, i, f).Apply? && mid == FailMid(s, i, f, message, kind, now)
    ensures Inv(s) ==> OutputsMatch(mid) && SetsMatch(mid)
  {
    if Inv(s) {
      FailMidKeeps(s, i, f, message, kind, now);
    }
  }

  lemma AckMidTables(s: State, i: WorkerIdentity, f: TaskFence, mid: State)
    requires AckVerdict(s, i, f).Apply? && mid == AckMid(s, i, f)
    ensures Inv(s) ==> OutputsMatch(mid) && SetsMatch(mid)
  {
    if Inv(s) {
      AckMidKeeps(s, i, f);
    }
  }

  lemma CancelMidTables(s: State, t: TaskId, mid: State)
    requires CancelVerdict(s, t).Apply? && s.tasks[t].holder.None? && mid == CancelMid(s, t)
    ensures Inv(s) ==> OutputsMatch(mid) && SetsMatch(mid)
  {
    if Inv(s) {
      CancelMidKeeps(s, t);
    }
  }

  // ---------------------------------------------------------------- scheduling

  /** Putting back the passed-over tasks except the chosen one is what the scan's result prescribes. */
  lemma RequeuedIs(s: State, node: NodeId, w: Worker, now: int)
    ensures var r := FullScan(s, node, w, now);
      r.seen <= |s.runnable| &&
      (Inv(s) ==> QueueAfter(s, r) == Without(r.passed, Chosen(r)) + s.runnable[r.seen..] + r.requeue)
  {
    var r := FullScan(s, node, w, now);
    FullScanKnows(s, node, w, now);
    if Inv(s) {
      var kept := Select(s, w, now, s.runnable[..r.seen], true);
      SelectNoDuplicates(s, w, now, s.runnable[..r.seen], true);
      assert kept == r.passed + PickedSeq(r);
      if r.picked.Some? {
        assert kept[|r.passed|] == r.picked.value;
        assert forall i :: 0 <= i < |r.passed| ==> kept[i] == r.passed[i];
        WithoutAbsent(r.passed, r.picked);
      } else if r.passed != [] {
        assert kept == r.passed;
        assert r.passed[0] !in r.passed[1..];
        WithoutAbsent(r.passed[1..], Some(r.passed[0]));
      }
    }
  }

  // ---------------------------------------------------------------- admission

  lemma {:induction false} CollectStops(known: map<OperationKey, OperationDescriptor>, ds: seq<OperationDescriptor>,
                                        k: nat)
    requires k <= |ds| && CollectOperations(known, ds[..k]).Err?
    ensures CollectOperations(known, ds) == CollectOperations(known, ds[..k])
    decreases |ds| - k
  {
    if k == |ds| {
      assert ds[..k] == ds;
    } else {
      assert ds[..k + 1][..k] == ds[..k];
      CollectStops(known, ds, k + 1);
    }
  }

  lemma {:induction false} InlineStops(d: OperationDescriptor, args: seq<TaskArg>, k: nat)
    requires k <= |args| && InlineError(d, args[..k]).Some?
    ensures InlineError(d, args) == InlineError(d, args[..k])
    decreases |args| - k
  {
    if k == |args| {
      assert args[..k] == args;
    } else {
      assert args[..k + 1][..k] == args[..k];
      InlineStops(d, args, k + 1);
    }
  }

  lemma {:induction false} ScanStops(s: State, d: OperationDescriptor, args: seq<TaskArg>, k: nat)
    requires k <= |args| && ScanArgs(s, d, args[..k]).Err?
    ensures ScanArgs(s, d, args) == ScanArgs(s, d, args[..k])
    decreases |args| - k
  {
    if k == |args| {
      assert args[..k] == args;
    } else {
      assert args[..k + 1][..k] == args[..k];
      ScanStops(s, d, args, k + 1);
    }
  }

  // ---------------------------------------------------------------- expiry and reclaim

  lemma HeldTables(s: State)
    ensures Inv(s) ==> OutputsMatch(s) && HoldersMatch(s) && SetsMatch(s)
  {
  }

  lemma NothingExpired(s: State, now: int)
    requires Expired(s, now) == {}
    ensures Inv(s) ==> ExpireOrder(s, now, [], [])
  {
    StartEvicting(s, now);
    assert HeldBy(s, {}) == {};
    assert Inv(s) ==> Ready(s) == {};
    assert Elements<TaskId>([]) == {};
  }

  /** Some task among `ids` that has not finished names `o` as an argument. */
  ghost predicate UsedBy(tasks: map<TaskId, Task>, ids: set<TaskId>, o: ObjectId)
  {
    exists t :: t in ids && t in tasks && !tasks[t].state.Terminal() && o in Deps(tasks[t])
  }

  lemma UsedByOneMore(tasks: map<TaskId, Task>, ids: set<TaskId>, t: TaskId)
    requires t in tasks
    ensures forall o :: UsedBy(tasks, ids + {t}, o) <==>
      UsedBy(tasks, ids, o) || (!tasks[t].state.Terminal() && o in Deps(tasks[t]))
  {
  }

  /** What the reclaim pass collects is what is due. */
  lemma DueAre(s: State, stamped: State, now: int, referenced: set<ObjectId>, due: set<ObjectId>)
    requires stamped == Stamp(s, now)
    requires forall o :: o in referenced <==> UsedBy(s.tasks, s.tasks.Keys, o)
    requires due == set t | t in stamped.tasks && stamped.tasks[t].state.Terminal()
      && SatSub(now, stamped.tasks[t].terminalSince) >= TERMINAL_TASK_TTL_MS
      && stamped.tasks[t].output !in referenced :: stamped.tasks[t].output
    ensures due == DueOutputs(stamped, now)
  {
    forall o ensures UsedBy(s.tasks, s.tasks.Keys, o) <==> InUse(stamped, o) {
      if t :| t in s.tasks && !s.tasks[t].state.Terminal() && o in Deps(s.tasks[t]) {
        assert t in stamped.tasks && o in Deps(stamped.tasks[t]);
      }
      if t :| t in stamped.tasks && !stamped.tasks[t].state.Terminal() && o in Deps(stamped.tasks[t]) {
        assert t in s.tasks.Keys && o in Deps(s.tasks[t]);
      }
    }
    assert forall t :: t in stamped.tasks ==> (DueForReclaim(stamped, now, t) <==>
      (stamped.tasks[t].state.Terminal() && SatSub(now, stamped.tasks[t].terminalSince) >= TERMINAL_TASK_TTL_MS
       && stamped.tasks[t].output !in referenced));
  }

  lemma StampIs(s: State, now: int, tasks: map<TaskId, Task>)
    requires tasks.Keys == s.tasks.Keys
    requires forall t :: t in tasks ==> tasks[t] == StampedTask(s.tasks[t], now)
    ensures s.(tasks := tasks) == Stamp(s, now)
  {
    var goal := Stamp(s, now).tasks;
    assert goal.Keys == tasks.Keys;
    assert forall t :: t in goal ==> tasks[t] == goal[t];
    assert tasks == goal;
  }

  lemma OrphansAre(before: map<ObjectId, ObjectRecord>, node: NodeId, after: map<ObjectId, ObjectRecord>)
    requires after.Keys == before.Keys
    requires forall o :: o in after ==> after[o] == OrphanedObject(before[o], {node})
    ensures after == OrphanedObjects(before, node)
  {
    var goal := OrphanedObjects(before, node);
    assert goal.Keys == after.Keys;
    assert forall o :: o in goal ==> after[o] == goal[o];
  }

  lemma ReleaseOneMore(s: State, order: seq<ObjectId>, o: ObjectId)
    ensures var (before, count) := ReleaseAll(s, order);
      var last := ReleaseObject(before, o);
      ReleaseAll(s, order + [o]) == (last.state, if last.reply.Ok? then count + 1 else count)
  {
    assert (order + [o])[..|order|] == order;
  }
}
