/** Lease expiry keeps the invariant: held tasks are retried, failed or cancelled and orphaned objects are lost. */
module Expiry {
  import opened Types
  import opened Model
  import opened Invariants
  import opened Steps
  import opened Dependencies

  /** The evicted workers are registered, `held` is all they hold, and `order` lists the retried tasks. */
  ghost predicate EvictArgs(s: State, nodes: set<NodeId>, held: set<TaskId>, order: seq<TaskId>)
  {
    held == HeldBy(s, nodes) && IsOrder(order, Retried(s, held))
  }

  lemma EvictedOutputsAre(s: State, held: set<TaskId>, t: TaskId, cancelled: bool)
    requires OutputsMatch(s) && t in s.tasks
    ensures s.tasks[t].output in EvictedOutputs(s, held, cancelled) <==>
      t in held && !RetriedOnEviction(s.tasks[t]) && s.tasks[t].state.CancelRequested? == cancelled
  {
    if s.tasks[t].output in EvictedOutputs(s, held, cancelled) {
      var u :| u in held && u in s.tasks && !RetriedOnEviction(s.tasks[u])
        && s.tasks[u].state.CancelRequested? == cancelled && s.tasks[u].output == s.tasks[t].output;
      assert u == t;
    }
  }

  lemma EvictOutputs(s: State, nodes: set<NodeId>, held: set<TaskId>, now: int, order: seq<TaskId>)
    requires OutputsMatch(s) && HoldersMatch(s) && EvictArgs(s, nodes, held, order)
    ensures OutputsMatch(Evict(s, nodes, held, now, order))
  {
    var s' := Evict(s, nodes, held, now, order);
    forall t | t in s'.tasks
      ensures s'.tasks[t].output in s'.objects
      ensures s'.tasks[t].state.Terminal() <==> !s'.objects[s'.tasks[t].output].state.Reserved?
    {
      EvictedOutputsAre(s, held, t, true);
      EvictedOutputsAre(s, held, t, false);
    }
  }

  lemma EvictObjects(s: State, nodes: set<NodeId>, held: set<TaskId>, now: int, order: seq<TaskId>)
    requires ObjectsMatch(s)
    ensures ObjectsMatch(Evict(s, nodes, held, now, order))
  {
    var s' := Evict(s, nodes, held, now, order);
    forall o | o in s'.objects && s'.objects[o].state.Reserved?
      ensures o in OutputsOf(s'.tasks, s'.tasks.Keys)
    {
      var t :| t in s.tasks && s.tasks[t].output == o;
      assert t in s'.tasks.Keys && s'.tasks[t].output == o;
    }
  }

  lemma EvictSets(s: State, nodes: set<NodeId>, held: set<TaskId>, now: int, order: seq<TaskId>)
    requires SetsMatch(s) && HoldersMatch(s) && EvictArgs(s, nodes, held, order)
    ensures SetsMatch(Evict(s, nodes, held, now, order))
  {
    var s' := Evict(s, nodes, held, now, order);
    forall t | t in held ensures t in s.tasks && s.tasks[t].state.InFlight() {
    }
    forall t ensures t in s'.waiting <==> t in s'.tasks && s'.tasks[t].state.Waiting? {
    }
  }

  lemma EvictQueue(s: State, nodes: set<NodeId>, held: set<TaskId>, now: int, order: seq<TaskId>)
    requires QueueMatches(s) && HoldersMatch(s) && LineageMatches(s) && EvictArgs(s, nodes, held, order)
    ensures QueueMatches(Evict(s, nodes, held, now, order))
  {
    var s' := Evict(s, nodes, held, now, order);
    forall t ensures t in order <==> t in Retried(s, held) {
      assert t in order <==> t in Elements(order);
    }
    forall t | t in held ensures t in s.tasks && s.tasks[t].state.InFlight() && t !in s.runnable {
    }
    NoDuplicatesConcat(s.runnable, order);
    forall t | IsRunnable(s', t) ensures t in s'.runnable {
      if t !in held {
        assert IsRunnable(s, t);
      }
    }
  }

  lemma EvictHolders(s: State, nodes: set<NodeId>, held: set<TaskId>, now: int, order: seq<TaskId>)
    requires HoldersMatch(s) && WorkersMatch(s) && AttemptsMatch(s) && EvictArgs(s, nodes, held, order)
    ensures var s' := Evict(s, nodes, held, now, order);
      HoldersMatch(s') && WorkersMatch(s') && AttemptsMatch(s')
  {
    var s' := Evict(s, nodes, held, now, order);
    forall t | t in s'.tasks && t in held
      ensures s'.tasks[t].holder.None? && !s'.tasks[t].state.InFlight() && AttemptsOk(s'.tasks[t])
      ensures s'.tasks[t].operation in s'.operations
    {
      assert s'.tasks[t] == EvictedTask(s.tasks[t], now) && AttemptsOk(s.tasks[t]);
    }
    forall t | t in s'.tasks && t !in held
      ensures s'.tasks[t] == s.tasks[t]
      ensures s.tasks[t].holder.Some? ==> s.tasks[t].holder.value.node in s'.workers
    {
    }
  }

  lemma EvictConserved(s: State, nodes: set<NodeId>, held: set<TaskId>, now: int, order: seq<TaskId>)
    requires Conserved(s) && EvictArgs(s, nodes, held, order)
    ensures Conserved(Evict(s, nodes, held, now, order))
  {
    var s' := Evict(s, nodes, held, now, order);
    forall n | n in s'.workers ensures Balanced(s'.tasks, s'.workers[n], n) {
      assert forall t :: t in s.tasks && t !in held ==> s'.tasks[t] == s.tasks[t];
      assert forall t :: t in held ==> s'.tasks[t].holder.None?;
      assert Held(s.tasks, n) == Held(s'.tasks, n);
      BalancedSame(s.tasks, s'.tasks, s.workers[n], n);
    }
  }

  lemma EvictedTaskIs(task: Task, now: int)
    ensures SameJob(task, EvictedTask(task, now))
    ensures EvictedTask(task, now).holder.None?
    ensures EvictedTask(task, now).attempt == task.attempt
    ensures var b := EvictedTask(task, now).state;
      b == if task.state.CancelRequested? then TaskState.Cancelled
           else if RetriedOnEviction(task) then Runnable
           else TaskState.Failed(LEASE_EXPIRED)
  {
  }

  lemma EvictLineage(s: State, nodes: set<NodeId>, held: set<TaskId>, now: int, order: seq<TaskId>)
    requires LineageMatches(s) && HoldersMatch(s) && Bounded(s) && EvictArgs(s, nodes, held, order)
    ensures var s' := Evict(s, nodes, held, now, order); LineageMatches(s') && Bounded(s')
  {
    var s' := Evict(s, nodes, held, now, order);
    assert s'.tasks.Keys == s.tasks.Keys;
    assert s'.objects.Keys == s.objects.Keys;
    forall t | t in s.tasks
      ensures SameJob(s.tasks[t], s'.tasks[t]) && (s.tasks[t].state.Terminal() ==> s'.tasks[t].state.Terminal())
    {
      EvictedTaskIs(s.tasks[t], now);
      assert t in held ==> s.tasks[t].state.InFlight();
    }
    LineageSame(s, s');
  }

  lemma EvictKeeps(s: State, nodes: set<NodeId>, held: set<TaskId>, now: int, order: seq<TaskId>)
    requires Consistent(s) && EvictArgs(s, nodes, held, order)
    ensures Consistent(Evict(s, nodes, held, now, order))
  {
    EvictOutputs(s, nodes, held, now, order);
    EvictObjects(s, nodes, held, now, order);
    EvictSets(s, nodes, held, now, order);
    EvictQueue(s, nodes, held, now, order);
    EvictHolders(s, nodes, held, now, order);
    EvictConserved(s, nodes, held, now, order);
    EvictLineage(s, nodes, held, now, order);
  }

  lemma ExpireKeeps(s: State, now: int, retried: seq<TaskId>, order: seq<TaskId>, s': State)
    requires s' == ExpireWorkers(s, now, retried, order)
    requires IsOrder(retried, Retried(s, HeldBy(s, Expired(s, now))))
    requires IsOrder(order, Ready(EvictAll(s, now, retried)))
    ensures Inv(s) ==> Inv(s')
  {
    if Inv(s) {
      if Expired(s, now) != {} {
        EvictKeeps(s, Expired(s, now), HeldBy(s, Expired(s, now)), now, retried);
        SettleKeepsInv(EvictAll(s, now, retried), order);
        BumpKeeps(Settle(EvictAll(s, now, retried), order));
      }
    }
  }

  lemma BumpKeeps(s: State)
    requires Inv(s)
    ensures Inv(Bump(s))
  {
    var s' := Bump(s);
    SettledSame(s, s');
    LineageSame(s, s');
    assert forall t :: IsRunnable(s', t) ==> IsRunnable(s, t);
    forall n | n in s'.workers ensures Balanced(s'.tasks, s'.workers[n], n) {
      assert Balanced(s.tasks, s.workers[n], n);
    }
  }
}
