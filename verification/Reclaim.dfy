/** Releasing and reaping: nothing an unfinished task names is ever removed, and the reaper removes
    exactly what is due. */
module Reclaim {
  import opened Types
  import opened Sums
  import opened Model
  import opened Invariants
  import opened Steps

  /** An object that may be released: present, not pending, and named by no unfinished task. */
  predicate Releasable(s: State, id: ObjectId)
  {
    id in s.objects && !s.objects[id].state.Reserved? && !InUse(s, id)
  }

  lemma RemovedTasksAreDone(s: State, id: ObjectId, t: TaskId)
    requires OutputsMatch(s) && Releasable(s, id) && t in s.tasks
    ensures t !in RemoveObject(s, id).tasks ==> s.tasks[t].state.Terminal() && s.tasks[t].output == id
    ensures t in RemoveObject(s, id).tasks ==> RemoveObject(s, id).tasks[t] == s.tasks[t] && s.tasks[t].output != id
  {
  }

  lemma RemoveTables(s: State, id: ObjectId)
    requires OutputsMatch(s) && ObjectsMatch(s) && Bounded(s) && Releasable(s, id)
    ensures var s' := RemoveObject(s, id); OutputsMatch(s') && ObjectsMatch(s') && Bounded(s')
  {
    var s' := RemoveObject(s, id);
    SubsetSize(s'.tasks.Keys, s.tasks.Keys);
    SubsetSize(s'.objects.Keys, s.objects.Keys);
    assert |s.tasks| == |s.tasks.Keys| && |s'.tasks| == |s'.tasks.Keys|;
    assert |s.objects| == |s.objects.Keys| && |s'.objects| == |s'.objects.Keys|;
    forall o | o in s'.objects && s'.objects[o].state.Reserved?
      ensures o in OutputsOf(s'.tasks, s'.tasks.Keys)
    {
      var t :| t in s.tasks && s.tasks[t].output == o;
      assert t in s'.tasks.Keys && s'.tasks[t].output == o;
    }
  }

  lemma RemoveIndices(s: State, id: ObjectId)
    requires OutputsMatch(s) && SetsMatch(s) && QueueMatches(s) && Releasable(s, id)
    ensures var s' := RemoveObject(s, id); SetsMatch(s') && QueueMatches(s')
  {
    var s' := RemoveObject(s, id);
    forall t | t in s.tasks && !s.tasks[t].state.Terminal() ensures t in s'.tasks && s'.tasks[t] == s.tasks[t] {
      RemovedTasksAreDone(s, id, t);
    }
    forall t | IsRunnable(s', t) ensures t in s'.runnable {
      assert IsRunnable(s, t);
    }
  }

  lemma RemoveBookings(s: State, id: ObjectId)
    requires OutputsMatch(s) && HoldersMatch(s) && WorkersMatch(s) && Conserved(s) && AttemptsMatch(s)
    requires Releasable(s, id)
    ensures var s' := RemoveObject(s, id);
      HoldersMatch(s') && WorkersMatch(s') && Conserved(s') && AttemptsMatch(s')
  {
    var s' := RemoveObject(s, id);
    forall n | n in s'.workers ensures Balanced(s'.tasks, s'.workers[n], n) {
      forall t | t in s.tasks ensures t in Held(s.tasks, n) <==> t in Held(s'.tasks, n) {
        RemovedTasksAreDone(s, id, t);
      }
      assert Held(s.tasks, n) == Held(s'.tasks, n);
      BalancedSame(s.tasks, s'.tasks, s.workers[n], n);
    }
  }

  lemma RemoveLineage(s: State, id: ObjectId)
    requires LineageMatches(s) && Releasable(s, id)
    ensures LineageMatches(RemoveObject(s, id))
  {
    var s' := RemoveObject(s, id);
    forall t | t in s'.tasks && !s'.tasks[t].state.Terminal() ensures Deps(s'.tasks[t]) <= s'.objects.Keys {
      assert id !in Deps(s.tasks[t]);
    }
    forall t, u | Feeds(s', u, t) && !s'.tasks[t].state.Terminal() ensures s'.born[u] < s'.born[t] {
      assert Feeds(s, u, t);
    }
  }

  lemma RemoveSettled(s: State, id: ObjectId)
    requires Settled(s) && SetsMatch(s) && OutputsMatch(s) && Releasable(s, id)
    ensures Settled(RemoveObject(s, id))
  {
    var s' := RemoveObject(s, id);
    forall t | t in s'.waiting ensures !HasBroken(s', t) && !AllAvailable(s', t) {
      RemovedTasksAreDone(s, id, t);
      assert id !in Deps(s.tasks[t]);
      assert forall o :: o != id ==> Broken(s', o) == Broken(s, o) && IsAvailable(s', o) == IsAvailable(s, o);
      assert !HasBroken(s, t) && !AllAvailable(s, t);
    }
  }

  lemma RemoveObjectKeeps(s: State, id: ObjectId)
    requires Inv(s) && Releasable(s, id)
    ensures Inv(RemoveObject(s, id))
  {
    RemoveTables(s, id);
    RemoveIndices(s, id);
    RemoveBookings(s, id);
    RemoveLineage(s, id);
    RemoveSettled(s, id);
  }

  lemma ReleaseObjectKeeps(s: State, id: ObjectId, s': State)
    requires s' == ReleaseObject(s, id).state
    ensures Inv(s) ==> Inv(s')
  {
    if Inv(s) {
      if Releasable(s, id) {
        RemoveObjectKeeps(s, id);
      }
    }
  }

  // ---------------------------------------------------------------- the reaper

  lemma StampKeeps(s: State, now: int)
    requires Inv(s)
    ensures Inv(Stamp(s, now))
  {
    var s' := Stamp(s, now);
    assert s'.tasks.Keys == s.tasks.Keys;
    LineageSame(s, s');
    StampTables(s, now);
    StampIndices(s, now);
    StampBookings(s, now);
  }

  lemma StampTables(s: State, now: int)
    requires OutputsMatch(s) && ObjectsMatch(s)
    ensures OutputsMatch(Stamp(s, now)) && ObjectsMatch(Stamp(s, now))
  {
    var s' := Stamp(s, now);
    forall o | o in s'.objects && s'.objects[o].state.Reserved?
      ensures o in OutputsOf(s'.tasks, s'.tasks.Keys)
    {
      var t :| t in s.tasks && s.tasks[t].output == o;
      assert t in s'.tasks.Keys && s'.tasks[t].output == o;
    }
  }

  lemma StampIndices(s: State, now: int)
    requires SetsMatch(s) && QueueMatches(s) && Settled(s)
    ensures var s' := Stamp(s, now); SetsMatch(s') && QueueMatches(s') && Settled(s')
  {
    var s' := Stamp(s, now);
    forall t | IsRunnable(s', t) ensures t in s'.runnable {
      assert IsRunnable(s, t);
    }
    SettledSame(s, s');
  }

  lemma StampBookings(s: State, now: int)
    requires HoldersMatch(s) && WorkersMatch(s) && Conserved(s) && AttemptsMatch(s)
    ensures var s' := Stamp(s, now); HoldersMatch(s') && WorkersMatch(s') && Conserved(s') && AttemptsMatch(s')
  {
    var s' := Stamp(s, now);
    forall n | n in s'.workers ensures Balanced(s'.tasks, s'.workers[n], n) {
      assert forall t :: t in s.tasks ==> s'.tasks[t].holder == s.tasks[t].holder;
      assert Held(s.tasks, n) == Held(s'.tasks, n);
      BalancedSame(s.tasks, s'.tasks, s.workers[n], n);
    }
  }

  function TasksWithoutAll(tasks: map<TaskId, Task>, gone: set<ObjectId>): map<TaskId, Task>
  {
    map t | t in tasks && tasks[t].output !in gone :: tasks[t]
  }

  /** Every listed object is the output of a finished task that no unfinished task names. */
  ghost predicate AllReleasable(s: State, gone: set<ObjectId>)
  {
    forall o :: o in gone ==> Releasable(s, o)
  }

  lemma StillReleasable(s: State, s': State, gone: set<ObjectId>, o: ObjectId)
    requires Releasable(s, o) && o !in gone
    requires s'.tasks == TasksWithoutAll(s.tasks, gone) && s'.objects == s.objects - gone
    ensures Releasable(s', o)
  {
    forall t | t in s'.tasks && !s'.tasks[t].state.Terminal() ensures o !in Deps(s'.tasks[t]) {
      assert t in s.tasks && s.tasks[t] == s'.tasks[t];
    }
  }

  /** Releasing a list of releasable objects removes exactly those objects and their producers, and never fails. */
  lemma {:induction false} ReleaseAllExact(s: State, order: seq<ObjectId>)
    requires NoDuplicates(order) && AllReleasable(s, Elements(order))
    ensures var (s', n) := ReleaseAll(s, order);
      && n == |order|
      && s'.tasks == TasksWithoutAll(s.tasks, Elements(order))
      && s'.objects == s.objects - Elements(order)
    decreases |order|
  {
    if order == [] {
      assert Elements(order) == {};
      assert TasksWithoutAll(s.tasks, {}) == s.tasks;
    } else {
      var init, last := order[..|order| - 1], order[|order| - 1];
      assert order == init + [last];
      assert Elements(order) == Elements(init) + {last};
      assert last !in Elements(init);
      ReleaseAllExact(s, init);
      var (before, count) := ReleaseAll(s, init);
      StillReleasable(s, before, Elements(init), last);
      TasksWithoutStep(s.tasks, Elements(init), last);
    }
  }

  lemma {:induction false} ReleaseAllKeeps(s: State, order: seq<ObjectId>, s': State)
    requires Inv(s) && s' == ReleaseAll(s, order).0
    ensures Inv(s')
    decreases |order|
  {
    if order != [] {
      ReleaseAllKeeps(s, order[..|order| - 1], ReleaseAll(s, order[..|order| - 1]).0);
      ReleaseObjectKeeps(ReleaseAll(s, order[..|order| - 1]).0, order[|order| - 1], s');
    }
  }

  lemma ReapKeeps(s: State, now: int, order: seq<ObjectId>, s': State)
    requires s' == Reap(s, now, order).0
    ensures Inv(s) ==> Inv(s')
  {
    if Inv(s) {
      StampKeeps(s, now);
      ReleaseAllKeeps(Stamp(s, now), order, s');
    }
  }

  lemma TasksWithoutStep(tasks: map<TaskId, Task>, gone: set<ObjectId>, id: ObjectId)
    ensures TasksWithout(TasksWithoutAll(tasks, gone), id) == TasksWithoutAll(tasks, gone + {id})
  {
  }

  lemma DueAreReleasable(s: State, now: int)
    requires OutputsMatch(s)
    ensures AllReleasable(s, DueOutputs(s, now))
  {
    forall o | o in DueOutputs(s, now) ensures Releasable(s, o) {
      var t :| t in DueTasks(s, now) && t in s.tasks && s.tasks[t].output == o;
    }
  }

  lemma {:induction false} ElementsSize<T>(q: seq<T>)
    requires NoDuplicates(q)
    ensures |Elements(q)| == |q|
    decreases |q|
  {
    if q != [] {
      var init, last := q[..|q| - 1], q[|q| - 1];
      ElementsSize(init);
      assert q == init + [last];
      assert Elements(q) == Elements(init) + {last};
      assert last !in Elements(init);
    }
  }

  lemma {:induction false} OutputsSize(s: State, ids: set<TaskId>)
    requires OutputsMatch(s) && ids <= s.tasks.Keys
    ensures |OutputsOf(s.tasks, ids)| == |ids|
    decreases ids
  {
    if ids == {} {
      assert OutputsOf(s.tasks, ids) == {};
    } else {
      var t := Member(ids);
      var rest := ids - {t};
      OutputsSize(s, rest);
      assert OutputsOf(s.tasks, ids) == OutputsOf(s.tasks, rest) + {s.tasks[t].output};
      assert s.tasks[t].output !in OutputsOf(s.tasks, rest);
    }
  }

  /** The reaper removes exactly the tasks whose retention ran out and whose output nobody needs,
      every release succeeds, and it reports their number. */
  lemma ReapExact(s: State, now: int, order: seq<ObjectId>)
    requires OutputsMatch(s) && ObjectsMatch(s) && IsOrder(order, DueOutputs(Stamp(s, now), now))
    ensures var stamped := Stamp(s, now);
      var (s', n) := Reap(s, now, order);
      && n == |DueTasks(stamped, now)|
      && s'.objects == s.objects - DueOutputs(stamped, now)
      && (forall t :: t in s'.tasks <==> t in s.tasks && t !in DueTasks(stamped, now))
      && (forall t :: t in s'.tasks ==> s'.tasks[t] == stamped.tasks[t])
  {
    var stamped := Stamp(s, now);
    StampTables(s, now);
    DueAreReleasable(stamped, now);
    ReleaseAllExact(stamped, order);
    ElementsSize(order);
    OutputsSize(stamped, DueTasks(stamped, now));
    forall t | t in stamped.tasks
      ensures stamped.tasks[t].output in DueOutputs(stamped, now) <==> t in DueTasks(stamped, now)
    {
    }
  }
}
