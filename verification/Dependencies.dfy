/** Dependency propagation: what reconciliation must do, and that it keeps the invariant. */
module Dependencies {
  import opened Types
  import opened Model
  import opened Invariants

  // ---------------------------------------------------------------- the least fixpoint

  /** A set of waiting tasks that contains every directly broken one and is closed under feeding. */
  ghost predicate ClosedUnderFailure(s: State, f: set<TaskId>)
  {
    && f <= s.waiting
    && (forall t :: t in s.waiting && HasBroken(s, t) ==> t in f)
    && (forall t, u :: t in s.waiting && u in f && Feeds(s, u, t) ==> t in f)
  }

  /** Feeding from a doomed task dooms a waiting task. */
  lemma DoomExtends(s: State, t: TaskId, u: TaskId)
    requires t in s.waiting && u in Doomed(s) && Feeds(s, u, t)
    ensures t in Doomed(s)
  {
    var chain :| DoomChain(s, chain) && chain[0] == u;
    var longer := [t] + chain;
    forall i | 0 <= i < |longer| - 1 ensures Feeds(s, longer[i + 1], longer[i]) {
      if i > 0 {
        assert Feeds(s, chain[i], chain[i - 1]);
      }
    }
    assert DoomChain(s, longer) && longer[0] == t;
  }

  lemma BrokenIsDoomed(s: State, t: TaskId)
    requires t in s.waiting && HasBroken(s, t)
    ensures t in Doomed(s)
  {
    assert DoomChain(s, [t]) && [t][0] == t;
  }

  /** The doomed tasks form a closed set. */
  lemma DoomedIsClosed(s: State)
    ensures ClosedUnderFailure(s, Doomed(s))
  {
    forall t | t in s.waiting && HasBroken(s, t) ensures t in Doomed(s) {
      BrokenIsDoomed(s, t);
    }
    forall t, u | t in s.waiting && u in Doomed(s) && Feeds(s, u, t) ensures t in Doomed(s) {
      DoomExtends(s, t, u);
    }
  }

  lemma {:induction false} ChainInClosed(s: State, f: set<TaskId>, chain: seq<TaskId>)
    requires ClosedUnderFailure(s, f) && DoomChain(s, chain)
    ensures chain[0] in f
    decreases |chain|
  {
    if |chain| > 1 {
      var rest := chain[1..];
      forall i | 0 <= i < |rest| - 1 ensures Feeds(s, rest[i + 1], rest[i]) {
        assert Feeds(s, chain[i + 2], chain[i + 1]);
      }
      assert DoomChain(s, rest);
      ChainInClosed(s, f, rest);
      assert Feeds(s, chain[1], chain[0]);
    }
  }

  /** ... and it is the smallest one: nothing fails that a broken dependency does not reach. */
  lemma DoomedIsLeast(s: State, f: set<TaskId>)
    requires ClosedUnderFailure(s, f)
    ensures Doomed(s) <= f
  {
    forall t | t in Doomed(s) ensures t in f {
      var chain :| DoomChain(s, chain) && chain[0] == t;
      ChainInClosed(s, f, chain);
    }
  }

  lemma DoomedHasCause(s: State, t: TaskId)
    requires t in Doomed(s)
    ensures HasBroken(s, t) || exists u :: u in Doomed(s) && Feeds(s, u, t)
  {
    var chain :| DoomChain(s, chain) && chain[0] == t;
    if |chain| > 1 {
      var rest := chain[1..];
      forall i | 0 <= i < |rest| - 1 ensures Feeds(s, rest[i + 1], rest[i]) {
        assert Feeds(s, chain[i + 2], chain[i + 1]);
      }
      assert DoomChain(s, rest) && rest[0] == chain[1];
      assert Feeds(s, chain[1], chain[0]);
      assert chain[1] in Doomed(s);
    }
  }

  /** No task is both failed and freed. */
  lemma DoomedNotReady(s: State, t: TaskId)
    requires OutputsMatch(s) && SetsMatch(s)
    requires t in Doomed(s)
    ensures t !in Ready(s)
  {
    DoomedHasCause(s, t);
    if HasBroken(s, t) {
      var o :| o in Deps(s.tasks[t]) && Broken(s, o);
      assert !IsAvailable(s, o);
    } else {
      var u :| u in Doomed(s) && Feeds(s, u, t);
      assert !IsAvailable(s, s.tasks[u].output);
    }
  }

  // ---------------------------------------------------------------- settling keeps the invariant

  /** The tasks `failed` and `freed` are waiting and disjoint, and `order` lists the freed ones. */
  ghost predicate SettleArgs(s: State, failed: set<TaskId>, freed: set<TaskId>, order: seq<TaskId>)
  {
    failed <= s.waiting && freed <= s.waiting && failed !! freed && IsOrder(order, freed)
  }

  lemma SettleOutputs(s: State, failed: set<TaskId>, freed: set<TaskId>, order: seq<TaskId>)
    requires OutputsMatch(s) && SetsMatch(s) && SettleArgs(s, failed, freed, order)
    ensures OutputsMatch(SettleBy(s, failed, freed, order))
  {
    var s' := SettleBy(s, failed, freed, order);
    forall t | t in s'.tasks
      ensures s'.tasks[t].output in s'.objects
      ensures s'.tasks[t].state.Terminal() <==> !s'.objects[s'.tasks[t].output].state.Reserved?
    {
      assert s'.tasks[t].output == s.tasks[t].output;
      assert s.tasks[t].output in OutputsOf(s.tasks, failed) <==> t in failed;
    }
  }

  lemma SettleObjects(s: State, failed: set<TaskId>, freed: set<TaskId>, order: seq<TaskId>)
    requires ObjectsMatch(s) && SettleArgs(s, failed, freed, order)
    ensures ObjectsMatch(SettleBy(s, failed, freed, order))
  {
    var s' := SettleBy(s, failed, freed, order);
    forall o | o in s'.objects && s'.objects[o].state.Reserved?
      ensures o in OutputsOf(s'.tasks, s'.tasks.Keys)
    {
      var t :| t in s.tasks && s.tasks[t].output == o;
      assert t in s'.tasks.Keys && s'.tasks[t].output == o;
    }
  }

  lemma SettleSets(s: State, failed: set<TaskId>, freed: set<TaskId>, order: seq<TaskId>)
    requires SetsMatch(s) && SettleArgs(s, failed, freed, order)
    ensures SetsMatch(SettleBy(s, failed, freed, order))
  {
  }

  lemma SettleQueue(s: State, failed: set<TaskId>, freed: set<TaskId>, order: seq<TaskId>)
    requires SetsMatch(s) && QueueMatches(s) && LineageMatches(s) && SettleArgs(s, failed, freed, order)
    ensures QueueMatches(SettleBy(s, failed, freed, order))
  {
    var s' := SettleBy(s, failed, freed, order);
    assert forall t :: t in order <==> t in freed by {
      assert forall t :: t in order <==> t in Elements(order);
    }
    forall t | t in s.runnable ensures t !in order {
      assert t !in s.waiting;
    }
    NoDuplicatesConcat(s.runnable, order);
    forall t | IsRunnable(s', t) ensures t in s'.runnable {
      if t !in freed {
        assert IsRunnable(s, t);
      }
    }
  }

  lemma SettleHolders(s: State, failed: set<TaskId>, freed: set<TaskId>, order: seq<TaskId>)
    requires SetsMatch(s) && HoldersMatch(s) && WorkersMatch(s) && AttemptsMatch(s)
    requires SettleArgs(s, failed, freed, order)
    ensures var s' := SettleBy(s, failed, freed, order);
      HoldersMatch(s') && WorkersMatch(s') && AttemptsMatch(s')
  {
  }

  lemma SettleConserved(s: State, failed: set<TaskId>, freed: set<TaskId>, order: seq<TaskId>)
    requires Conserved(s)
    ensures Conserved(SettleBy(s, failed, freed, order))
  {
    var s' := SettleBy(s, failed, freed, order);
    forall n | n in s'.workers ensures Balanced(s'.tasks, s'.workers[n], n) {
      assert forall t :: t in s.tasks ==> s'.tasks[t].holder == s.tasks[t].holder;
      assert Held(s.tasks, n) == Held(s'.tasks, n);
      BalancedSame(s.tasks, s'.tasks, s.workers[n], n);
    }
  }

  lemma SettleLineage(s: State, failed: set<TaskId>, freed: set<TaskId>, order: seq<TaskId>)
    requires SetsMatch(s) && LineageMatches(s) && Bounded(s) && SettleArgs(s, failed, freed, order)
    ensures var s' := SettleBy(s, failed, freed, order); LineageMatches(s') && Bounded(s')
  {
    LineageSame(s, SettleBy(s, failed, freed, order));
  }

  lemma SettleByKeeps(s: State, failed: set<TaskId>, freed: set<TaskId>, order: seq<TaskId>)
    requires Consistent(s) && SettleArgs(s, failed, freed, order)
    ensures Consistent(SettleBy(s, failed, freed, order))
  {
    SettleOutputs(s, failed, freed, order);
    SettleObjects(s, failed, freed, order);
    SettleSets(s, failed, freed, order);
    SettleQueue(s, failed, freed, order);
    SettleHolders(s, failed, freed, order);
    SettleConserved(s, failed, freed, order);
    SettleLineage(s, failed, freed, order);
  }

  lemma SettleSettles(s: State, order: seq<TaskId>, t: TaskId)
    requires OutputsMatch(s) && SetsMatch(s)
    requires t in Settle(s, order).waiting
    ensures !HasBroken(Settle(s, order), t) && !AllAvailable(Settle(s, order), t)
  {
    var s' := Settle(s, order);
    DoomedIsClosed(s);
    assert Deps(s'.tasks[t]) == Deps(s.tasks[t]);
    forall o | o in Deps(s'.tasks[t])
      ensures !Broken(s', o)
      ensures IsAvailable(s', o) <==> IsAvailable(s, o)
    {
      assert !HasBroken(s, t);
      assert !Broken(s, o);
      if o in OutputsOf(s.tasks, Doomed(s)) {
        var u :| u in Doomed(s) && u in s.tasks && s.tasks[u].output == o;
        assert Feeds(s, u, t);
        assert false;
      }
    }
  }

  lemma SettleArgsHold(s: State, order: seq<TaskId>)
    requires OutputsMatch(s) && SetsMatch(s) && IsOrder(order, Ready(s))
    ensures SettleArgs(s, Doomed(s), Ready(s), order)
  {
    forall t | t in Doomed(s) ensures t !in Ready(s) {
      DoomedNotReady(s, t);
    }
  }

  /** Reconciliation restores the full invariant from any consistent state. */
  lemma SettleKeepsInv(s: State, order: seq<TaskId>)
    requires Consistent(s) && IsOrder(order, Ready(s))
    ensures Inv(Settle(s, order))
  {
    SettleArgsHold(s, order);
    SettleByKeeps(s, Doomed(s), Ready(s), order);
    forall t | t in Settle(s, order).waiting
      ensures !HasBroken(Settle(s, order), t) && !AllAvailable(Settle(s, order), t)
    {
      SettleSettles(s, order, t);
    }
  }
}
