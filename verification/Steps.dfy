/** Transitions that change one task, the worker table or the object table keep the invariant. */
module Steps {
  import opened Types
  import opened Resources
  import opened Model
  import opened Invariants

  // ---------------------------------------------------------------- one task changes

  /** `s'` differs from `s` at most in task `t`, in its output's record, and in indices and workers. */
  ghost predicate ChangesOne(s: State, s': State, t: TaskId)
  {
    && t in s.tasks && t in s'.tasks
    && SameJob(s.tasks[t], s'.tasks[t])
    && s'.tasks == s.tasks[t := s'.tasks[t]]
    && s.tasks[t].output in s.objects && s.tasks[t].output in s'.objects
    && s'.objects == s.objects[s.tasks[t].output := s'.objects[s.tasks[t].output]]
    && s'.born == s.born && s'.operations == s.operations && s'.epoch == s.epoch
  }

  lemma OneTables(s: State, s': State, t: TaskId)
    requires OutputsMatch(s) && ObjectsMatch(s) && ChangesOne(s, s', t)
    requires s'.tasks[t].state.Terminal() <==> !s'.objects[s.tasks[t].output].state.Reserved?
    requires s'.objects[s.tasks[t].output].state.Available? ==> Complete?(s'.objects[s.tasks[t].output])
    ensures OutputsMatch(s') && ObjectsMatch(s')
  {
    forall o | o in s'.objects && s'.objects[o].state.Reserved?
      ensures o in OutputsOf(s'.tasks, s'.tasks.Keys)
    {
      if o == s.tasks[t].output {
        assert t in s'.tasks.Keys && s'.tasks[t].output == o;
      } else {
        var u :| u in s.tasks && s.tasks[u].output == o;
        assert u in s'.tasks.Keys && s'.tasks[u].output == o;
      }
    }
  }

  lemma OneLineage(s: State, s': State, t: TaskId)
    requires LineageMatches(s) && Bounded(s) && ChangesOne(s, s', t)
    requires s.tasks[t].state.Terminal() ==> s'.tasks[t].state.Terminal()
    ensures LineageMatches(s') && Bounded(s')
  {
    LineageSame(s, s');
  }

  lemma OneQueue(s: State, s': State, t: TaskId)
    requires QueueMatches(s) && LineageMatches(s) && ChangesOne(s, s', t)
    requires s'.tasks[t].state.Runnable? ==> s.tasks[t].state.InFlight() && s'.runnable == s.runnable + [t]
    requires !s'.tasks[t].state.Runnable? ==> s'.runnable == s.runnable
    requires s.tasks[t].state.InFlight() || s'.tasks[t].state.Terminal()
    ensures QueueMatches(s')
  {
    if s'.tasks[t].state.Runnable? {
      assert t !in s.runnable;
      NoDuplicatesConcat(s.runnable, [t]);
    }
    forall u | IsRunnable(s', u) ensures u in s'.runnable {
      if u != t {
        assert IsRunnable(s, u);
      }
    }
  }

  lemma OneSets(s: State, s': State, t: TaskId)
    requires SetsMatch(s) && ChangesOne(s, s', t)
    requires s'.waiting == if s'.tasks[t].state.Waiting? then s.waiting + {t} else s.waiting - {t}
    requires s'.cancelRequested ==
      if s'.tasks[t].state.CancelRequested? then s.cancelRequested + {t} else s.cancelRequested - {t}
    ensures SetsMatch(s')
  {
  }

  /** Who holds task `t` afterwards, and under which attempt, is in order. */
  predicate HoldingOk(s: State, task: Task)
  {
    && AttemptsOk(task)
    && (task.holder.Some? <==> task.state.InFlight())
    && (task.holder.Some? ==>
          var a := task.holder.value;
          && a.node in s.workers
          && a.workerEpoch == s.workers[a.node].identity.workerEpoch
          && a.session == s.workers[a.node].identity.session)
  }

  /** The same workers are registered under the same identities. */
  ghost predicate SameIdentities(s: State, s': State)
  {
    && s'.workers.Keys == s.workers.Keys && s'.epoch == s.epoch
    && forall n :: n in s.workers ==>
         s'.workers[n].identity == s.workers[n].identity && s'.workers[n].state == s.workers[n].state
  }

  lemma OneHolders(s: State, s': State, t: TaskId)
    requires HoldersMatch(s) && WorkersMatch(s) && AttemptsMatch(s) && ChangesOne(s, s', t)
    requires SameIdentities(s, s') && HoldingOk(s, s'.tasks[t])
    ensures HoldersMatch(s') && WorkersMatch(s') && AttemptsMatch(s')
  {
  }

  /** Bookings are untouched while the same worker goes on holding the task. */
  lemma OneStillHeld(s: State, s': State, t: TaskId)
    requires HoldersMatch(s) && WorkersMatch(s) && Conserved(s) && AttemptsMatch(s) && ChangesOne(s, s', t)
    requires s'.workers == s.workers && s'.tasks[t].holder == s.tasks[t].holder
    requires s'.tasks[t].holder.Some? <==> s'.tasks[t].state.InFlight()
    requires AttemptsOk(s'.tasks[t])
    ensures HoldersMatch(s') && WorkersMatch(s') && Conserved(s') && AttemptsMatch(s')
  {
    hide Balanced;
    OneHolders(s, s', t);
    forall n | n in s'.workers ensures Balanced(s'.tasks, s'.workers[n], n) {
      BalancedRewrite(s.tasks, t, s'.tasks[t], s.workers[n], n);
    }
  }

  lemma GiveBackBalances(s: State, n: NodeId, t: TaskId, task: Task)
    requires Conserved(s) && n in s.workers && t in Held(s.tasks, n) && task.holder.None?
    requires CanGiveBack(s, n, s.tasks[t].resources)
    ensures Balanced(s.tasks[t := task], GiveBack(s, n, s.tasks[t].resources).workers[n], n)
  {
    hide Balanced;
    var w := s.workers[n];
    forall name { PlusGet(w.available, s.tasks[t].resources, w.total, name); }
    LeaveBalances(s.tasks, t, task, w, GiveBack(s, n, s.tasks[t].resources).workers[n], n);
  }

  /** Handing a booking back conserves slots and resources. */
  lemma OneGivenBack(s: State, s': State, t: TaskId, n: NodeId)
    requires HoldersMatch(s) && WorkersMatch(s) && Conserved(s) && AttemptsMatch(s) && ChangesOne(s, s', t)
    requires n in s.workers && t in Held(s.tasks, n) && s'.tasks[t].holder.None?
    requires CanGiveBack(s, n, s.tasks[t].resources)
    requires s'.workers == GiveBack(s, n, s.tasks[t].resources).workers
    requires !s'.tasks[t].state.InFlight() && AttemptsOk(s'.tasks[t])
    ensures HoldersMatch(s') && WorkersMatch(s') && Conserved(s') && AttemptsMatch(s')
  {
    hide Balanced;
    OneHolders(s, s', t);
    forall m | m in s'.workers ensures Balanced(s'.tasks, s'.workers[m], m) {
      if m == n {
        GiveBackBalances(s, n, t, s'.tasks[t]);
      } else {
        BalancedElsewhere(s.tasks, t, s'.tasks[t], s.workers[m], m);
      }
    }
  }

  lemma SettledSame(s: State, s': State)
    requires Settled(s) && SetsMatch(s) && s'.objects == s.objects && s'.waiting == s.waiting
    requires forall t :: t in s.waiting ==> t in s'.tasks && s'.tasks[t] == s.tasks[t]
    ensures Settled(s')
  {
    forall t | t in s'.waiting ensures !HasBroken(s', t) && !AllAvailable(s', t) {
      assert forall o :: Broken(s', o) == Broken(s, o) && IsAvailable(s', o) == IsAvailable(s, o);
      assert !HasBroken(s, t) && !AllAvailable(s, t);
    }
  }

  // ---------------------------------------------------------------- worker reports

  /** A passed fence check names a task the worker holds. */
  lemma FenceMeansHeld(s: State, i: WorkerIdentity, f: TaskFence)
    requires HoldersMatch(s) && FenceOk(s, i, f)
    ensures f.task in Held(s.tasks, i.node) && s.tasks[f.task].state.InFlight()
  {
  }

  lemma StartedKeeps(s: State, i: WorkerIdentity, f: TaskFence, s': State)
    requires s' == Started(s, i, f).state
    ensures Inv(s) ==> Inv(s')
  {
    hide Conserved, LineageMatches, QueueMatches, ObjectsMatch;
    if Inv(s) {
      if s' != s {
        var t := f.task;
        assert ChangesOne(s, s', t);
        OneTables(s, s', t);
        OneLineage(s, s', t);
        OneQueue(s, s', t);
        OneSets(s, s', t);
        OneStillHeld(s, s', t);
        SettledSame(s, s');
      }
    }
  }

  lemma EndAttemptKeeps(s: State, s': State, n: NodeId, t: TaskId)
    requires Consistent(s) && ChangesOne(s, s', t)
    requires n in s.workers && t in Held(s.tasks, n) && s.tasks[t].state.InFlight()
    requires CanGiveBack(s, n, s.tasks[t].resources)
    requires s'.workers == GiveBack(s, n, s.tasks[t].resources).workers
    requires s'.tasks[t].holder.None? && AttemptsOk(s'.tasks[t])
    requires s'.tasks[t].state.Terminal() || s'.tasks[t].state.Runnable?
    requires s'.tasks[t].state.Terminal() <==> !s'.objects[s.tasks[t].output].state.Reserved?
    requires s'.objects[s.tasks[t].output].state.Available? ==> Complete?(s'.objects[s.tasks[t].output])
    requires s'.runnable == if s'.tasks[t].state.Runnable? then s.runnable + [t] else s.runnable
    requires s'.waiting == s.waiting - {t} && s'.cancelRequested == s.cancelRequested - {t}
    ensures Consistent(s')
  {
    hide OutputsMatch, ObjectsMatch, LineageMatches, QueueMatches, HoldersMatch, WorkersMatch, Conserved, SetsMatch;
    OneTables(s, s', t);
    OneLineage(s, s', t);
    OneQueue(s, s', t);
    OneSets(s, s', t);
    OneGivenBack(s, s', t, n);
  }

  lemma CompleteMidKeeps(s: State, h: Bytes -> Digest, i: WorkerIdentity, r: TaskCompletion)
    requires Consistent(s) && CompleteVerdict(s, h, i, r).Apply?
    ensures Consistent(CompleteMid(s, i, r))
  {
    hide Conserved, LineageMatches, QueueMatches, ObjectsMatch;
    var s' := CompleteMid(s, i, r);
    var t := r.fence.task;
    FenceMeansHeld(s, i, r.fence);
    assert s'.waiting == s.waiting - {t} && s'.cancelRequested == s.cancelRequested - {t};
    EndAttemptKeeps(s, s', i.node, t);
  }

  lemma FailMidKeeps(s: State, i: WorkerIdentity, f: TaskFence, message: string, kind: FailureClass, now: int)
    requires Consistent(s) && FailVerdict(s, i, f).Apply?
    ensures Consistent(FailMid(s, i, f, message, kind, now))
  {
    hide Conserved, LineageMatches, QueueMatches, ObjectsMatch;
    var s' := FailMid(s, i, f, message, kind, now);
    var t := f.task;
    FenceMeansHeld(s, i, f);
    assert s'.waiting == s.waiting - {t} && s'.cancelRequested == s.cancelRequested - {t};
    assert s.objects[s.tasks[t].output].state.Reserved?;
    if Retries(s.tasks[t], kind) {
      assert s'.tasks[t].state.Runnable? && s'.objects[s.tasks[t].output].state.Reserved?;
      EndAttemptKeeps(s, s', i.node, t);
    } else {
      assert s'.tasks[t].state.Terminal() && s'.objects[s.tasks[t].output].state.ProducerFailed?;
      EndAttemptKeeps(s, s', i.node, t);
    }
  }

  lemma RetryKeepsSettled(s: State, i: WorkerIdentity, f: TaskFence, message: string, kind: FailureClass, now: int)
    requires Inv(s) && FailVerdict(s, i, f).Apply? && Retries(s.tasks[f.task], kind)
    ensures Settled(FailMid(s, i, f, message, kind, now))
  {
    hide Conserved, LineageMatches, QueueMatches, ObjectsMatch;
    var s' := FailMid(s, i, f, message, kind, now);
    FenceMeansHeld(s, i, f);
    assert s'.waiting == s.waiting;
    assert s'.objects == s.objects;
    SettledSame(s, s');
  }

  lemma AckMidKeeps(s: State, i: WorkerIdentity, f: TaskFence)
    requires Consistent(s) && AckVerdict(s, i, f).Apply?
    ensures Consistent(AckMid(s, i, f))
  {
    hide Conserved, LineageMatches, QueueMatches, ObjectsMatch;
    var s' := AckMid(s, i, f);
    FenceMeansHeld(s, i, f);
    assert s'.waiting == s.waiting - {f.task};
    EndAttemptKeeps(s, s', i.node, f.task);
  }

  // ---------------------------------------------------------------- cancellation

  lemma CancelMidKeeps(s: State, t: TaskId)
    requires Consistent(s) && CancelVerdict(s, t).Apply? && s.tasks[t].holder.None?
    ensures Consistent(CancelMid(s, t))
  {
    hide Conserved, LineageMatches, QueueMatches, ObjectsMatch;
    var s' := CancelMid(s, t);
    assert ChangesOne(s, s', t);
    assert s'.cancelRequested == s.cancelRequested - {t};
    OneTables(s, s', t);
    OneLineage(s, s', t);
    OneQueue(s, s', t);
    OneSets(s, s', t);
    OneStillHeld(s, s', t);
  }

  lemma CancelRequestKeeps(s: State, t: TaskId, order: seq<TaskId>)
    requires Inv(s) && CancelVerdict(s, t).Apply? && s.tasks[t].holder.Some?
    ensures Inv(Cancel(s, t, order).state)
  {
    hide Conserved, LineageMatches, QueueMatches, ObjectsMatch;
    var s' := Cancel(s, t, order).state;
    assert ChangesOne(s, s', t);
    assert s'.waiting == s.waiting - {t};
    OneTables(s, s', t);
    OneLineage(s, s', t);
    OneQueue(s, s', t);
    OneSets(s, s', t);
    OneStillHeld(s, s', t);
    SettledSame(s, s');
  }
}
