/** What reconciliation does, told locally: every waiting task is judged by the records it sees afterwards, and only
    one state is like that. */
module Reconciliation {
  import opened Types
  import opened Model
  import opened Invariants
  import opened Dependencies

  /** The object is gone, or will never become available. */
  predicate NeverComes(objects: map<ObjectId, ObjectRecord>, o: ObjectId)
  {
    o !in objects || objects[o].state == ProducerFailed || objects[o].state == ProducerCancelled
    || objects[o].state == Lost
  }

  predicate IsThere(objects: map<ObjectId, ObjectRecord>, o: ObjectId)
  {
    o in objects && objects[o].state == Available
  }

  /** What becomes of a waiting task, judged by the records its arguments end up with. */
  predicate JudgedBy(task: Task, objects: map<ObjectId, ObjectRecord>, verdict: TaskState)
  {
    var inputs := set arg | arg in task.args && arg.ObjectArg? :: arg.id;
    if exists o :: o in inputs && NeverComes(objects, o) then verdict == TaskState.Failed("dependency failed")
    else if forall o :: o in inputs ==> IsThere(objects, o) then verdict == Runnable
    else verdict == Waiting
  }

  /** Task `t` of `tasks` waits and `s'` has it failed. */
  predicate GivenUp(tasks: map<TaskId, Task>, s': State, t: TaskId)
  {
    t in tasks && t in s'.tasks && tasks[t].state == Waiting && s'.tasks[t].state != Waiting
    && s'.tasks[t].state != Runnable
  }

  ghost predicate LosesProducer(tasks: map<TaskId, Task>, s': State, o: ObjectId)
  {
    exists t :: GivenUp(tasks, s', t) && tasks[t].output == o
  }

  /** `s'` is `tasks` and `objects` reconciled: each waiting task is judged by the records in `s'`, the output of one
      that is given up is marked, and nothing else changes. */
  ghost predicate Reconciled(tasks: map<TaskId, Task>, objects: map<ObjectId, ObjectRecord>, s': State)
  {
    && s'.tasks.Keys == tasks.Keys && s'.objects.Keys == objects.Keys
    && (forall t :: t in tasks && tasks[t].state != Waiting ==> s'.tasks[t] == tasks[t])
    && (forall t :: t in tasks && tasks[t].state == Waiting ==>
          && s'.tasks[t] == tasks[t].(state := s'.tasks[t].state)
          && JudgedBy(tasks[t], s'.objects, s'.tasks[t].state))
    && (forall o :: o in objects ==>
          s'.objects[o] == if LosesProducer(tasks, s', o) then objects[o].(state := ProducerFailed) else objects[o])
  }

  lemma DoomedLosesProducer(s: State, order: seq<TaskId>, s': State, o: ObjectId)
    requires OutputsMatch(s) && SetsMatch(s) && s' == Settle(s, order) && o in s.objects
    ensures LosesProducer(s.tasks, s', o) <==> o in OutputsOf(s.tasks, Doomed(s))
  {
    if LosesProducer(s.tasks, s', o) {
      var t :| GivenUp(s.tasks, s', t) && s.tasks[t].output == o;
      assert t in Doomed(s);
    }
    if o in OutputsOf(s.tasks, Doomed(s)) {
      var t :| t in Doomed(s) && t in s.tasks && s.tasks[t].output == o;
      assert GivenUp(s.tasks, s', t);
    }
  }

  lemma DoomedIsJudgedFailed(s: State, order: seq<TaskId>, s': State, t: TaskId)
    requires OutputsMatch(s) && SetsMatch(s) && s' == Settle(s, order) && t in Doomed(s)
    ensures exists o :: o in Deps(s.tasks[t]) && NeverComes(s'.objects, o)
  {
    DoomedHasCause(s, t);
    if HasBroken(s, t) {
      var o :| o in Deps(s.tasks[t]) && Broken(s, o);
      assert NeverComes(s'.objects, o);
    } else {
      var u :| u in Doomed(s) && Feeds(s, u, t);
      assert NeverComes(s'.objects, s.tasks[u].output);
    }
  }

  lemma OthersAreNotJudgedFailed(s: State, order: seq<TaskId>, s': State, t: TaskId, o: ObjectId)
    requires OutputsMatch(s) && SetsMatch(s) && s' == Settle(s, order)
    requires t in s.waiting && t !in Doomed(s) && o in Deps(s.tasks[t])
    ensures !NeverComes(s'.objects, o) && (IsThere(s'.objects, o) <==> IsAvailable(s, o))
  {
    DoomedIsClosed(s);
    assert !HasBroken(s, t);
    if o in OutputsOf(s.tasks, Doomed(s)) {
      var u :| u in Doomed(s) && u in s.tasks && s.tasks[u].output == o;
      assert Feeds(s, u, t);
    }
  }

  lemma SettleJudges(s: State, order: seq<TaskId>, s': State, t: TaskId)
    requires OutputsMatch(s) && SetsMatch(s) && s' == Settle(s, order) && t in s.waiting
    ensures s'.tasks[t] == s.tasks[t].(state := s'.tasks[t].state)
    ensures JudgedBy(s.tasks[t], s'.objects, s'.tasks[t].state)
  {
    if t in Doomed(s) {
      DoomedIsJudgedFailed(s, order, s', t);
    } else {
      forall o | o in Deps(s.tasks[t])
        ensures !NeverComes(s'.objects, o) && (IsThere(s'.objects, o) <==> IsAvailable(s, o))
      {
        OthersAreNotJudgedFailed(s, order, s', t, o);
      }
    }
  }

  /** Reconciliation reaches a state in which every waiting task has been judged by what it sees there. */
  lemma SettleReconciles(s: State, order: seq<TaskId>, s': State)
    requires OutputsMatch(s) && SetsMatch(s) && s' == Settle(s, order)
    ensures Reconciled(s.tasks, s.objects, s')
  {
    hide OutputsMatch, JudgedBy, LosesProducer;
    forall t | t in s.tasks && s.tasks[t].state == Waiting
      ensures s'.tasks[t] == s.tasks[t].(state := s'.tasks[t].state)
      ensures JudgedBy(s.tasks[t], s'.objects, s'.tasks[t].state)
    {
      SettleJudges(s, order, s', t);
    }
    forall o | o in s.objects
      ensures s'.objects[o] ==
        if LosesProducer(s.tasks, s', o) then s.objects[o].(state := ProducerFailed) else s.objects[o]
    {
      DoomedLosesProducer(s, order, s', o);
    }
  }

  lemma {:induction false} SameVerdict(s: State, a: State, b: State, t: TaskId)
    requires LineageMatches(s) && Reconciled(s.tasks, s.objects, a) && Reconciled(s.tasks, s.objects, b)
    requires t in s.tasks && s.tasks[t].state == Waiting
    ensures a.tasks[t] == b.tasks[t]
    decreases s.born[t]
  {
    forall u | Feeds(s, u, t) && s.tasks[u].state == Waiting ensures a.tasks[u] == b.tasks[u] {
      SameVerdict(s, a, b, u);
    }
    forall o | o in Deps(s.tasks[t]) ensures o in a.objects <==> o in b.objects
      ensures o in a.objects ==> a.objects[o] == b.objects[o]
    {
      assert o in a.objects <==> o in s.objects.Keys;
      SameProducer(s, a, b, t, o);
      SameProducer(s, b, a, t, o);
    }
    SameJudgement(s.tasks[t], a.objects, b.objects, a.tasks[t].state, b.tasks[t].state);
  }

  lemma SameProducer(s: State, a: State, b: State, t: TaskId, o: ObjectId)
    requires Reconciled(s.tasks, s.objects, a) && Reconciled(s.tasks, s.objects, b)
    requires t in s.tasks && o in Deps(s.tasks[t])
    requires forall u :: Feeds(s, u, t) && s.tasks[u].state == Waiting ==> a.tasks[u] == b.tasks[u]
    ensures LosesProducer(s.tasks, a, o) ==> LosesProducer(s.tasks, b, o)
  {
    if LosesProducer(s.tasks, a, o) {
      var u :| GivenUp(s.tasks, a, u) && s.tasks[u].output == o;
      assert Feeds(s, u, t);
      assert u in b.tasks.Keys && GivenUp(s.tasks, b, u);
    }
  }

  lemma SameJudgement(task: Task, a: map<ObjectId, ObjectRecord>, b: map<ObjectId, ObjectRecord>, va: TaskState,
                      vb: TaskState)
    requires JudgedBy(task, a, va) && JudgedBy(task, b, vb)
    requires forall o :: o in Deps(task) ==> (o in a <==> o in b) && (o in a ==> a[o] == b[o])
    ensures va == vb
  {
    assert forall o :: o in Deps(task) ==>
      (NeverComes(a, o) <==> NeverComes(b, o)) && (IsThere(a, o) <==> IsThere(b, o));
  }

  /** There is only one such state, because inputs come from tasks submitted earlier: being reconciled says
      everything about what reconciliation does. */
  lemma ReconciledIsUnique(s: State, a: State, b: State)
    requires LineageMatches(s) && Reconciled(s.tasks, s.objects, a) && Reconciled(s.tasks, s.objects, b)
    ensures a.tasks == b.tasks && a.objects == b.objects
  {
    forall t | t in s.tasks ensures a.tasks[t] == b.tasks[t] {
      if s.tasks[t].state == Waiting {
        SameVerdict(s, a, b, t);
      }
    }
    assert a.tasks.Keys == s.tasks.Keys == b.tasks.Keys;
    assert a.tasks == b.tasks;
    assert a.objects.Keys == s.objects.Keys == b.objects.Keys;
    forall o | o in s.objects ensures a.objects[o] == b.objects[o] {
      assert forall t :: GivenUp(s.tasks, a, t) <==> GivenUp(s.tasks, b, t);
      assert LosesProducer(s.tasks, a, o) <==> LosesProducer(s.tasks, b, o);
    }
  }
}
