/** The mutual invariant of the coordinator's tables, indices and bookings. */
module Invariants {
  import opened Types
  import opened Resources
  import opened Sums
  import opened Model

  // ---------------------------------------------------------------- the parts

  /** A task is unfinished exactly while its output is reserved; outputs are never shared. */
  ghost predicate OutputsMatch(s: State)
  {
    && (forall t :: t in s.tasks ==>
          s.tasks[t].output in s.objects &&
          (s.tasks[t].state.Terminal() <==> !s.objects[s.tasks[t].output].state.Reserved?))
    && (forall t, u :: t in s.tasks && u in s.tasks && s.tasks[t].output == s.tasks[u].output ==> t == u)
  }

  /** A reserved object is the output of some task, and an available one has everything a reader needs. */
  ghost predicate ObjectsMatch(s: State)
  {
    forall o :: o in s.objects ==>
      && (s.objects[o].state.Reserved? ==> o in OutputsOf(s.tasks, s.tasks.Keys))
      && (s.objects[o].state.Available? ==> Complete?(s.objects[o]))
  }

  /** The waiting and cancel-requested sets are exactly the tasks in those states. */
  ghost predicate SetsMatch(s: State)
  {
    && (forall t :: t in s.waiting <==> t in s.tasks && s.tasks[t].state.Waiting?)
    && (forall t :: t in s.cancelRequested <==> t in s.tasks && s.tasks[t].state.CancelRequested?)
  }

  /** Every runnable task is queued exactly once; any other entry is a finished or removed task. */
  ghost predicate QueueMatches(s: State)
  {
    && NoDuplicates(s.runnable)
    && (forall t :: IsRunnable(s, t) ==> t in s.runnable)
    && (forall t :: t in s.runnable ==> t in s.born)
    && (forall t :: t in s.runnable && t in s.tasks ==> s.tasks[t].state.Runnable? || s.tasks[t].state.Terminal())
  }

  /** A task is held exactly while in flight, by the current session of a registered worker. */
  ghost predicate HoldersMatch(s: State)
  {
    forall t :: t in s.tasks ==>
      && (s.tasks[t].holder.Some? <==> s.tasks[t].state.InFlight())
      && (s.tasks[t].holder.Some? ==>
            var a := s.tasks[t].holder.value;
            && a.node in s.workers
            && a.workerEpoch == s.workers[a.node].identity.workerEpoch
            && a.session == s.workers[a.node].identity.session)
  }

  /** Registered workers are never dead and are filed under their own node id. */
  ghost predicate WorkersMatch(s: State)
  {
    forall n :: n in s.workers ==>
      && !s.workers[n].state.Dead?
      && s.workers[n].identity.node == n
      && s.workers[n].identity.coordinatorEpoch == s.epoch
  }

  function Held(tasks: map<TaskId, Task>, n: NodeId): set<TaskId>
  {
    set t | t in tasks && tasks[t].holder.Some? && tasks[t].holder.value.node == n
  }

  function Demand(tasks: map<TaskId, Task>, name: Name): (d: TaskId -> int)
    ensures forall t :: t in tasks ==> d(t) == Get(tasks[t].resources, name)
    ensures forall t :: d(t) >= 0
  {
    t => if t in tasks then Get(tasks[t].resources, name) else 0
  }

  /** How much of a resource the tasks held by a worker take. */
  ghost function Load(tasks: map<TaskId, Task>, n: NodeId, name: Name): int
  {
    Sum(Held(tasks, n), Demand(tasks, name))
  }

  ghost predicate Balanced(tasks: map<TaskId, Task>, w: Worker, n: NodeId)
  {
    && w.freeSlots + |Held(tasks, n)| == w.slots
    && forall name :: Get(w.available, name) + Load(tasks, n, name) == Get(w.total, name)
  }

  /** Conservation: free plus held equals total, for slots and for every resource. */
  ghost predicate Conserved(s: State)
  {
    forall n :: n in s.workers ==> Balanced(s.tasks, s.workers[n], n)
  }

  predicate AttemptsOk(task: Task)
  {
    && 0 <= task.attempt <= task.maxAttempts
    && (task.state.Waiting? || task.state.Runnable? ==> task.attempt < task.maxAttempts)
    && (task.state.Waiting? ==> task.attempt == 0)
    && (task.state.InFlight() ==> 0 < task.attempt)
  }

  ghost predicate AttemptsMatch(s: State)
  {
    forall t :: t in s.tasks ==> AttemptsOk(s.tasks[t]) && s.tasks[t].operation in s.operations
  }

  /** Inputs of unfinished tasks are present and were produced by tasks submitted earlier. */
  ghost predicate LineageMatches(s: State)
  {
    && (forall t :: t in s.tasks ==> t in s.born)
    && (forall t :: t in s.born ==> 0 <= s.born[t] < |s.born|)
    && (forall t :: t in s.tasks && !s.tasks[t].state.Terminal() ==> Deps(s.tasks[t]) <= s.objects.Keys)
    && (forall t, u :: Feeds(s, u, t) && !s.tasks[t].state.Terminal() ==> s.born[u] < s.born[t])
  }

  /** The tables stay within their caps. */
  ghost predicate Bounded(s: State)
  {
    |s.tasks| <= MAX_TASKS && |s.objects| <= MAX_OBJECTS
  }

  /** No waiting task is overdue: none has a broken dependency and none has all it needs. */
  ghost predicate Settled(s: State)
  {
    forall t :: t in s.waiting ==> !HasBroken(s, t) && !AllAvailable(s, t)
  }

  /** Everything but `Settled`, which a transition may suspend until dependants are reconciled. */
  ghost predicate Consistent(s: State)
  {
    && OutputsMatch(s) && ObjectsMatch(s) && SetsMatch(s) && QueueMatches(s)
    && HoldersMatch(s) && WorkersMatch(s) && Conserved(s) && AttemptsMatch(s)
    && LineageMatches(s) && Bounded(s)
  }

  ghost predicate Inv(s: State)
  {
    Consistent(s) && Settled(s)
  }

  // ---------------------------------------------------------------- bookings

  lemma LoadSame(tasks: map<TaskId, Task>, tasks': map<TaskId, Task>, n: NodeId, name: Name)
    requires Held(tasks, n) == Held(tasks', n)
    requires forall t :: t in Held(tasks, n) ==> tasks'[t].resources == tasks[t].resources
    ensures Load(tasks, n, name) == Load(tasks', n, name)
  {
    forall t | t in Held(tasks, n) ensures Demand(tasks, name)(t) == Demand(tasks', name)(t) {
      assert t in Held(tasks', n);
    }
    SumSame(Held(tasks, n), Demand(tasks, name), Demand(tasks', name));
  }

  lemma BalancedSame(tasks: map<TaskId, Task>, tasks': map<TaskId, Task>, w: Worker, n: NodeId)
    requires Balanced(tasks, w, n)
    requires Held(tasks, n) == Held(tasks', n)
    requires forall t :: t in Held(tasks, n) ==> tasks'[t].resources == tasks[t].resources
    ensures Balanced(tasks', w, n)
  {
    forall name ensures Get(w.available, name) + Load(tasks', n, name) == Get(w.total, name) {
      LoadSame(tasks, tasks', n, name);
    }
  }

  /** Swapping one task's record moves exactly that task's demand in or out of a worker's load. */
  lemma LoadJoin(tasks: map<TaskId, Task>, t: TaskId, task: Task, n: NodeId, name: Name)
    requires t in tasks && t !in Held(tasks, n)
    requires task.holder.Some? && task.holder.value.node == n && task.resources == tasks[t].resources
    ensures Held(tasks[t := task], n) == Held(tasks, n) + {t}
    ensures Load(tasks[t := task], n, name) == Load(tasks, n, name) + Get(task.resources, name)
  {
    var tasks' := tasks[t := task];
    assert Held(tasks', n) == Held(tasks, n) + {t};
    SumAdd(Held(tasks, n), Demand(tasks', name), t);
    SumSame(Held(tasks, n), Demand(tasks, name), Demand(tasks', name));
  }

  lemma LoadLeave(tasks: map<TaskId, Task>, t: TaskId, task: Task, n: NodeId, name: Name)
    requires t in tasks && t in Held(tasks, n)
    requires task.holder.None?
    ensures Held(tasks[t := task], n) == Held(tasks, n) - {t}
    ensures Load(tasks[t := task], n, name) == Load(tasks, n, name) - Get(tasks[t].resources, name)
  {
    var tasks' := tasks[t := task];
    assert Held(tasks', n) == Held(tasks, n) - {t};
    SumRemove(Held(tasks, n), Demand(tasks, name), t);
    SumSame(Held(tasks', n), Demand(tasks, name), Demand(tasks', name));
  }

  /** A worker that takes a task on and books its demand stays balanced. */
  lemma JoinBalances(tasks: map<TaskId, Task>, t: TaskId, task: Task, w: Worker, w': Worker, n: NodeId)
    requires Balanced(tasks, w, n) && t in tasks && t !in Held(tasks, n)
    requires task.holder.Some? && task.holder.value.node == n && task.resources == tasks[t].resources
    requires w'.slots == w.slots && w'.total == w.total && w'.freeSlots == w.freeSlots - 1
    requires forall name :: Get(w'.available, name) == Get(w.available, name) - Get(task.resources, name)
    ensures Balanced(tasks[t := task], w', n)
  {
    hide Load, Get, Held;
    LoadJoin(tasks, t, task, n, Name(""));
    forall name ensures Get(w'.available, name) + Load(tasks[t := task], n, name) == Get(w'.total, name) {
      LoadJoin(tasks, t, task, n, name);
    }
  }

  /** A worker that gives a task up and gets its demand back stays balanced. */
  lemma LeaveBalances(tasks: map<TaskId, Task>, t: TaskId, task: Task, w: Worker, w': Worker, n: NodeId)
    requires Balanced(tasks, w, n) && t in tasks && t in Held(tasks, n) && task.holder.None?
    requires w'.slots == w.slots && w'.total == w.total && w'.freeSlots == w.freeSlots + 1
    requires forall name :: Get(w'.available, name) == Get(w.available, name) + Get(tasks[t].resources, name)
    ensures Balanced(tasks[t := task], w', n)
  {
    hide Load, Get, Held;
    LoadLeave(tasks, t, task, n, Name(""));
    forall name ensures Get(w'.available, name) + Load(tasks[t := task], n, name) == Get(w'.total, name) {
      LoadLeave(tasks, t, task, n, name);
    }
  }

  /** A worker is not affected by a task it does not hold before or after. */
  lemma BalancedElsewhere(tasks: map<TaskId, Task>, t: TaskId, task: Task, w: Worker, n: NodeId)
    requires Balanced(tasks, w, n) && t in tasks && t !in Held(tasks, n)
    requires task.holder.None? || task.holder.value.node != n
    ensures Balanced(tasks[t := task], w, n)
  {
    hide Balanced;
    assert Held(tasks[t := task], n) == Held(tasks, n);
    BalancedSame(tasks, tasks[t := task], w, n);
  }

  /** Nor by a change of a task that leaves its holder and its demand alone. */
  lemma BalancedRewrite(tasks: map<TaskId, Task>, t: TaskId, task: Task, w: Worker, n: NodeId)
    requires Balanced(tasks, w, n) && t in tasks
    requires task.holder == tasks[t].holder && task.resources == tasks[t].resources
    ensures Balanced(tasks[t := task], w, n)
  {
    hide Balanced;
    assert Held(tasks[t := task], n) == Held(tasks, n);
    BalancedSame(tasks, tasks[t := task], w, n);
  }

  /** A held task's booking can always be handed back: this is why `release` cannot fail after a fence check. */
  lemma HeldCanGiveBack(s: State, n: NodeId, t: TaskId)
    requires Conserved(s) && n in s.workers && t in Held(s.tasks, n)
    ensures CanGiveBack(s, n, s.tasks[t].resources)
  {
    var w := s.workers[n];
    var res := s.tasks[t].resources;
    assert Balanced(s.tasks, w, n);
    assert {t} <= Held(s.tasks, n);
    SubsetSize({t}, Held(s.tasks, n));
    forall name | name in res ensures Get(w.available, name) + res[name] <= Get(w.total, name) {
      SumTermBound(Held(s.tasks, n), Demand(s.tasks, name), t);
    }
  }

  /** The worker's free share never exceeds its total. */
  lemma AvailableWithinTotal(s: State, n: NodeId)
    requires Conserved(s) && n in s.workers
    ensures CanFit(s.workers[n].total, s.workers[n].available)
    ensures s.workers[n].freeSlots <= s.workers[n].slots
  {
    var w := s.workers[n];
    assert Balanced(s.tasks, w, n);
    forall name | name in w.available ensures Get(w.total, name) >= w.available[name] {
      SumNonNegative(Held(s.tasks, n), Demand(s.tasks, name));
    }
  }

  // ---------------------------------------------------------------- framing

  /** What a task never changes after submission. */
  predicate SameJob(a: Task, b: Task)
  {
    && a.operation == b.operation && a.args == b.args && a.output == b.output
    && a.resources == b.resources && a.maxAttempts == b.maxAttempts
  }

  /** Lineage and caps hold while the tables keep their keys, tasks keep their jobs and no task revives. */
  lemma LineageSame(s: State, s': State)
    requires LineageMatches(s) && Bounded(s)
    requires s'.tasks.Keys == s.tasks.Keys && s'.objects.Keys == s.objects.Keys && s'.born == s.born
    requires forall t :: t in s.tasks ==>
      SameJob(s.tasks[t], s'.tasks[t]) && (s.tasks[t].state.Terminal() ==> s'.tasks[t].state.Terminal())
    ensures LineageMatches(s') && Bounded(s')
  {
    assert |s.tasks| == |s.tasks.Keys| && |s'.tasks| == |s'.tasks.Keys|;
    assert |s.objects| == |s.objects.Keys| && |s'.objects| == |s'.objects.Keys|;
    forall t | t in s'.tasks ensures t in s.tasks && Deps(s'.tasks[t]) == Deps(s.tasks[t]) {
      assert t in s.tasks.Keys;
    }
    forall t, u | Feeds(s', u, t) && !s'.tasks[t].state.Terminal() ensures s'.born[u] < s'.born[t] {
      assert Feeds(s, u, t);
    }
  }
}
