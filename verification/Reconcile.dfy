/** Why visiting blocked tasks one at a time, in any order, reaches exactly the settled state. */
module Reconcile {
  import opened Types
  import opened Model
  import opened Invariants
  import opened Dependencies

  /** Only doomed tasks have been failed and only ready ones freed so far. */
  ghost predicate OnTrack(s: State, failed: set<TaskId>, freed: set<TaskId>, order: seq<TaskId>)
  {
    failed <= Doomed(s) && freed <= Ready(s) && SettleArgs(s, failed, freed, order)
  }

  lemma StartOnTrack(s: State)
    ensures OnTrack(s, {}, {}, []) && SettleBy(s, {}, {}, []) == s
  {
    var s' := SettleBy(s, {}, {}, []);
    assert Elements<TaskId>([]) == {};
    assert OutputsOf(s.tasks, {}) == {};
    assert forall t :: t in s.tasks ==> s'.tasks[t] == s.tasks[t];
    assert s'.tasks.Keys == s.tasks.Keys;
    assert s'.objects.Keys == s.objects.Keys;
    assert s'.tasks == s.tasks && s'.objects == s.objects;
  }

  /** A task seen with a broken dependency mid-way was doomed from the start. */
  lemma BrokenMidwayIsDoomed(s: State, failed: set<TaskId>, freed: set<TaskId>, order: seq<TaskId>, t: TaskId)
    requires OnTrack(s, failed, freed, order) && SetsMatch(s)
    requires t in SettleBy(s, failed, freed, order).waiting && HasBroken(SettleBy(s, failed, freed, order), t)
    ensures t in Doomed(s)
  {
    var m := SettleBy(s, failed, freed, order);
    DoomedIsClosed(s);
    var o :| o in Deps(m.tasks[t]) && Broken(m, o);
    assert Deps(m.tasks[t]) == Deps(s.tasks[t]);
    if Broken(s, o) {
      assert HasBroken(s, t);
    } else {
      assert o in OutputsOf(s.tasks, failed);
      var u :| u in failed && u in s.tasks && s.tasks[u].output == o;
      assert Feeds(s, u, t);
    }
  }

  /** A task seen with all its inputs mid-way had them from the start. */
  lemma ReadyMidwayIsReady(s: State, failed: set<TaskId>, freed: set<TaskId>, order: seq<TaskId>, t: TaskId)
    requires OnTrack(s, failed, freed, order) && SetsMatch(s)
    requires t in SettleBy(s, failed, freed, order).waiting && AllAvailable(SettleBy(s, failed, freed, order), t)
    ensures t in Ready(s)
  {
    var m := SettleBy(s, failed, freed, order);
    assert Deps(m.tasks[t]) == Deps(s.tasks[t]);
    forall o | o in Deps(s.tasks[t]) ensures IsAvailable(s, o) {
      assert IsAvailable(m, o);
    }
  }

  /** Failing one more task, in place. */
  function FailedOne(m: State, t: TaskId): State
    requires t in m.tasks && m.tasks[t].output in m.objects
  {
    var o := m.tasks[t].output;
    m.(tasks := m.tasks[t := m.tasks[t].(state := TaskState.Failed(DEPENDENCY_FAILED))],
       waiting := m.waiting - {t},
       objects := m.objects[o := m.objects[o].(state := ProducerFailed)])
  }

  /** Freeing one more task, in place. */
  function FreedOne(m: State, t: TaskId): State
    requires t in m.tasks
  {
    m.(tasks := m.tasks[t := m.tasks[t].(state := Runnable)],
       waiting := m.waiting - {t},
       runnable := m.runnable + [t])
  }

  lemma FailedOneIs(s: State, failed: set<TaskId>, freed: set<TaskId>, order: seq<TaskId>, t: TaskId)
    requires OutputsMatch(s) && SetsMatch(s) && SettleArgs(s, failed, freed, order)
    requires t in s.waiting && t !in failed && t !in freed
    ensures var m := SettleBy(s, failed, freed, order);
      && t in m.tasks && m.tasks[t].output in m.objects
      && FailedOne(m, t) == SettleBy(s, failed + {t}, freed, order)
  {
    var m := SettleBy(s, failed, freed, order);
    var m' := SettleBy(s, failed + {t}, freed, order);
    assert OutputsOf(s.tasks, failed + {t}) == OutputsOf(s.tasks, failed) + {s.tasks[t].output};
    assert FailedOne(m, t).tasks == m'.tasks;
    assert FailedOne(m, t).objects == m'.objects;
    assert FailedOne(m, t).waiting == m'.waiting;
  }

  lemma FreedOneIs(s: State, failed: set<TaskId>, freed: set<TaskId>, order: seq<TaskId>, t: TaskId)
    requires SetsMatch(s) && SettleArgs(s, failed, freed, order)
    requires t in s.waiting && t !in failed && t !in freed
    ensures var m := SettleBy(s, failed, freed, order);
      && t in m.tasks && FreedOne(m, t) == SettleBy(s, failed, freed + {t}, order + [t])
  {
    var m := SettleBy(s, failed, freed, order);
    var m' := SettleBy(s, failed, freed + {t}, order + [t]);
    assert FreedOne(m, t).tasks == m'.tasks;
    assert FreedOne(m, t).waiting == m'.waiting;
    assert FreedOne(m, t).runnable == m'.runnable;
  }

  lemma FailOnTrack(s: State, failed: set<TaskId>, freed: set<TaskId>, order: seq<TaskId>, t: TaskId)
    requires OnTrack(s, failed, freed, order) && OutputsMatch(s) && SetsMatch(s)
    requires t in SettleBy(s, failed, freed, order).waiting && HasBroken(SettleBy(s, failed, freed, order), t)
    ensures OnTrack(s, failed + {t}, freed, order)
  {
    BrokenMidwayIsDoomed(s, failed, freed, order, t);
  }

  lemma FreeOnTrack(s: State, failed: set<TaskId>, freed: set<TaskId>, order: seq<TaskId>, t: TaskId)
    requires OnTrack(s, failed, freed, order) && OutputsMatch(s) && SetsMatch(s)
    requires t in SettleBy(s, failed, freed, order).waiting && AllAvailable(SettleBy(s, failed, freed, order), t)
    ensures OnTrack(s, failed, freed + {t}, order + [t])
  {
    ReadyMidwayIsReady(s, failed, freed, order, t);
    assert Elements(order + [t]) == Elements(order) + {t};
    assert t !in Elements(order);
    NoDuplicatesConcat(order, [t]);
  }

  lemma StillBroken(s: State, failed: set<TaskId>, freed: set<TaskId>, order: seq<TaskId>, t: TaskId)
    requires SetsMatch(s) && t in s.waiting
    ensures HasBroken(s, t) ==> HasBroken(SettleBy(s, failed, freed, order), t)
    ensures (exists u :: u in failed && u in s.tasks && s.tasks[u].output in s.objects && Feeds(s, u, t)) ==>
      HasBroken(SettleBy(s, failed, freed, order), t)
  {
    var m := SettleBy(s, failed, freed, order);
    assert Deps(m.tasks[t]) == Deps(s.tasks[t]);
    if HasBroken(s, t) {
      var o :| o in Deps(s.tasks[t]) && Broken(s, o);
      assert Broken(m, o);
    }
    if u :| u in failed && u in s.tasks && s.tasks[u].output in s.objects && Feeds(s, u, t) {
      assert Broken(m, s.tasks[u].output);
    }
  }

  lemma StillAvailable(s: State, failed: set<TaskId>, freed: set<TaskId>, order: seq<TaskId>, t: TaskId)
    requires OutputsMatch(s) && SetsMatch(s) && failed <= s.waiting && t in s.waiting && AllAvailable(s, t)
    ensures AllAvailable(SettleBy(s, failed, freed, order), t)
  {
    var m := SettleBy(s, failed, freed, order);
    assert Deps(m.tasks[t]) == Deps(s.tasks[t]);
    forall o | o in Deps(s.tasks[t]) ensures IsAvailable(m, o) {
      assert o !in OutputsOf(s.tasks, failed);
    }
  }

  /** `m` is `s` with some doomed tasks failed and some ready ones freed. */
  ghost predicate Reached(s: State, failed: set<TaskId>, freed: set<TaskId>, order: seq<TaskId>, m: State)
  {
    OnTrack(s, failed, freed, order) && m == SettleBy(s, failed, freed, order)
  }

  lemma FailReaches(s: State, failed: set<TaskId>, freed: set<TaskId>, order: seq<TaskId>, m: State, t: TaskId)
    requires OutputsMatch(s) && SetsMatch(s) && Reached(s, failed, freed, order, m)
    requires t in m.waiting && HasBroken(m, t)
    ensures m.tasks[t].output in m.objects && Reached(s, failed + {t}, freed, order, FailedOne(m, t))
  {
    FailedOneIs(s, failed, freed, order, t);
    FailOnTrack(s, failed, freed, order, t);
  }

  lemma FreeReaches(s: State, failed: set<TaskId>, freed: set<TaskId>, order: seq<TaskId>, m: State, t: TaskId)
    requires OutputsMatch(s) && SetsMatch(s) && Reached(s, failed, freed, order, m)
    requires t in m.waiting && AllAvailable(m, t)
    ensures Reached(s, failed, freed + {t}, order + [t], FreedOne(m, t))
  {
    FreedOneIs(s, failed, freed, order, t);
    FreeOnTrack(s, failed, freed, order, t);
  }

  lemma ReachedWaiting(s: State, failed: set<TaskId>, freed: set<TaskId>, order: seq<TaskId>, m: State, t: TaskId)
    requires OutputsMatch(s) && SetsMatch(s) && Reached(s, failed, freed, order, m) && t in m.waiting
    ensures t in m.tasks && m.tasks[t].output in m.objects
  {
  }

  lemma ReachedDone(s: State, failed: set<TaskId>, freed: set<TaskId>, order: seq<TaskId>, m: State)
    requires OutputsMatch(s) && SetsMatch(s) && Reached(s, failed, freed, order, m) && Settled(m)
    ensures IsOrder(order, Ready(s)) && m == Settle(s, order)
  {
    QuietMeansDone(s, failed, freed, order);
  }

  /** When no waiting task is left that could be failed or freed, exactly the doomed have been failed and
      exactly the ready freed. */
  lemma QuietMeansDone(s: State, failed: set<TaskId>, freed: set<TaskId>, order: seq<TaskId>)
    requires OnTrack(s, failed, freed, order) && OutputsMatch(s) && SetsMatch(s)
    requires Settled(SettleBy(s, failed, freed, order))
    ensures failed == Doomed(s) && freed == Ready(s)
  {
    var m := SettleBy(s, failed, freed, order);
    forall t | t in s.waiting && (HasBroken(s, t) || exists u :: u in failed && Feeds(s, u, t)) ensures t in failed {
      StillBroken(s, failed, freed, order, t);
      DoomedIsClosed(s);
      DoomedNotReady(s, t);
      assert t !in m.waiting;
    }
    assert ClosedUnderFailure(s, failed);
    DoomedIsLeast(s, failed);
    forall t | t in Ready(s) ensures t in freed {
      StillAvailable(s, failed, freed, order, t);
      if t in Doomed(s) {
        DoomedNotReady(s, t);
      }
      assert t !in m.waiting;
    }
  }
}
