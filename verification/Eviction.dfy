/** Evicting workers and their tasks one at a time amounts to evicting them all at once. */
module Eviction {
  import opened Types
  import opened Model
  import opened Invariants
  import opened Expiry

  /** Evicting one held task, in place. */
  function EvictedOne(m: State, t: TaskId, now: int): State
    requires t in m.tasks && m.tasks[t].output in m.objects
  {
    var task := m.tasks[t];
    var o := m.objects[task.output];
    if task.state.CancelRequested? then
      m.(tasks := m.tasks[t := EvictedTask(task, now)],
         cancelRequested := m.cancelRequested - {t},
         objects := m.objects[task.output := o.(state := ProducerCancelled)])
    else if task.attempt < task.maxAttempts then
      m.(tasks := m.tasks[t := EvictedTask(task, now)],
         waiting := m.waiting - {t},
         runnable := m.runnable + [t])
    else
      m.(tasks := m.tasks[t := EvictedTask(task, now)],
         objects := m.objects[task.output := o.(state := ProducerFailed)])
  }

  /** The objects once a worker is gone. */
  function OrphanedObjects(objects: map<ObjectId, ObjectRecord>, node: NodeId): map<ObjectId, ObjectRecord>
  {
    map o | o in objects :: OrphanedObject(objects[o], {node})
  }

  function EvictedNode(m: State, node: NodeId): State
  {
    m.(workers := m.workers - {node},
       pendingDeletes := m.pendingDeletes - {node},
       objects := OrphanedObjects(m.objects, node))
  }

  /** `m` is `s` after evicting `nodes` and the tasks `held`, the retried ones queued as `order`. */
  ghost predicate Evicting(s: State, nodes: set<NodeId>, held: set<TaskId>, now: int, order: seq<TaskId>, m: State)
  {
    && held <= HeldBy(s, s.workers.Keys)
    && IsOrder(order, Retried(s, held))
    && m == Evict(s, nodes, held, now, order)
  }

  function OrderAfter(s: State, order: seq<TaskId>, t: TaskId): seq<TaskId>
    requires t in s.tasks
  {
    if RetriedOnEviction(s.tasks[t]) then order + [t] else order
  }

  lemma StartEvicting(s: State, now: int)
    ensures Evicting(s, {}, {}, now, [], s)
  {
    var m := Evict(s, {}, {}, now, []);
    assert Elements<TaskId>([]) == {} == Retried(s, {});
    assert EvictedOutputs(s, {}, true) == {} == EvictedOutputs(s, {}, false);
    assert m.tasks.Keys == s.tasks.Keys && m.objects.Keys == s.objects.Keys;
    assert forall t :: t in s.tasks ==> m.tasks[t] == s.tasks[t];
    assert forall o :: o in s.objects ==> m.objects[o] == s.objects[o];
    assert m.tasks == s.tasks && m.objects == s.objects;
    assert m.workers == s.workers && m.pendingDeletes == s.pendingDeletes;
  }

  /** A held task still to be evicted, as it stands mid-way. */
  lemma HeldMidway(s: State, nodes: set<NodeId>, held: set<TaskId>, now: int, order: seq<TaskId>, m: State, t: TaskId)
    requires OutputsMatch(s) && HoldersMatch(s) && Evicting(s, nodes, held, now, order, m)
    requires t in HeldBy(s, s.workers.Keys) && t !in held
    ensures t in m.tasks && m.tasks[t] == s.tasks[t]
    ensures m.tasks[t].output in m.objects && m.objects[m.tasks[t].output] == s.objects[s.tasks[t].output]
  {
    assert s.tasks[t].state.InFlight();
    assert s.tasks[t].output !in EvictedOutputs(s, held, true);
    assert s.tasks[t].output !in EvictedOutputs(s, held, false);
  }

  lemma EvictedOutputsGrow(s: State, held: set<TaskId>, t: TaskId, cancelled: bool)
    requires t in s.tasks
    ensures EvictedOutputs(s, held + {t}, cancelled) == EvictedOutputs(s, held, cancelled) +
      if !RetriedOnEviction(s.tasks[t]) && s.tasks[t].state.CancelRequested? == cancelled
      then {s.tasks[t].output} else {}
  {
  }

  lemma OneMoreOutput(objects: map<ObjectId, ObjectRecord>, nodes: set<NodeId>, cancelled: set<ObjectId>,
                      failed: set<ObjectId>, o: ObjectId)
    requires o in objects && objects[o].state.Reserved? && o !in cancelled && o !in failed
    ensures EvictedObjects(objects, nodes, cancelled, failed)[o := objects[o].(state := ProducerCancelled)]
      == EvictedObjects(objects, nodes, cancelled + {o}, failed)
    ensures EvictedObjects(objects, nodes, cancelled, failed)[o := objects[o].(state := ProducerFailed)]
      == EvictedObjects(objects, nodes, cancelled, failed + {o})
  {
  }

  lemma EvictOneObjects(s: State, nodes: set<NodeId>, held: set<TaskId>, now: int, order: seq<TaskId>, m: State,
                        t: TaskId)
    requires OutputsMatch(s) && HoldersMatch(s) && Evicting(s, nodes, held, now, order, m)
    requires t in HeldBy(s, s.workers.Keys) && t !in held
    requires t in m.tasks && m.tasks[t].output in m.objects
    ensures EvictedOne(m, t, now).objects == EvictedObjects(s.objects, nodes, EvictedOutputs(s, held + {t}, true),
                                                            EvictedOutputs(s, held + {t}, false))
  {
    HeldMidway(s, nodes, held, now, order, m, t);
    EvictedOutputsGrow(s, held, t, true);
    EvictedOutputsGrow(s, held, t, false);
    var cancelled, failed := EvictedOutputs(s, held, true), EvictedOutputs(s, held, false);
    EvictedOutputsAre(s, held, t, true);
    EvictedOutputsAre(s, held, t, false);
    OneMoreOutput(s.objects, nodes, cancelled, failed, s.tasks[t].output);
    assert cancelled + {} == cancelled && failed + {} == failed;
  }

  lemma EvictOneTasks(tasks: map<TaskId, Task>, held: set<TaskId>, now: int, t: TaskId)
    requires t in tasks
    ensures EvictedTasks(tasks, held, now)[t := EvictedTask(tasks[t], now)] == EvictedTasks(tasks, held + {t}, now)
  {
  }

  lemma EvictOneOrder(s: State, held: set<TaskId>, order: seq<TaskId>, t: TaskId)
    requires IsOrder(order, Retried(s, held)) && t in s.tasks && t !in held
    ensures Retried(s, held + {t}) == Retried(s, held) + if RetriedOnEviction(s.tasks[t]) then {t} else {}
    ensures IsOrder(OrderAfter(s, order, t), Retried(s, held + {t}))
  {
    if RetriedOnEviction(s.tasks[t]) {
      assert t !in Elements(order);
      NoDuplicatesConcat(order, [t]);
      assert Elements(order + [t]) == Elements(order) + {t};
    }
  }

  lemma EvictOne(s: State, nodes: set<NodeId>, held: set<TaskId>, now: int, order: seq<TaskId>, m: State, t: TaskId)
    requires OutputsMatch(s) && HoldersMatch(s) && SetsMatch(s) && Evicting(s, nodes, held, now, order, m)
    requires t in HeldBy(s, s.workers.Keys) && t !in held
    ensures t in m.tasks && m.tasks[t].output in m.objects
    ensures Evicting(s, nodes, held + {t}, now, OrderAfter(s, order, t), EvictedOne(m, t, now))
  {
    hide OutputsMatch, HoldersMatch, EvictedTasks, EvictedObjects, EvictedOutputs;
    HeldMidway(s, nodes, held, now, order, m, t);
    EvictOneObjects(s, nodes, held, now, order, m, t);
    EvictOneTasks(s.tasks, held, now, t);
    EvictOneOrder(s, held, order, t);
    var after := EvictedOne(m, t, now);
    var goal := Evict(s, nodes, held + {t}, now, OrderAfter(s, order, t));
    assert after.waiting == goal.waiting;
    assert after.cancelRequested == goal.cancelRequested;
    assert after.runnable == goal.runnable;
    assert after == goal;
  }

  lemma EvictNode(s: State, nodes: set<NodeId>, held: set<TaskId>, now: int, order: seq<TaskId>, m: State, node: NodeId)
    requires Evicting(s, nodes, held, now, order, m)
    ensures Evicting(s, nodes + {node}, held, now, order, EvictedNode(m, node))
  {
    var after := EvictedNode(m, node);
    var goal := Evict(s, nodes + {node}, held, now, order);
    assert after.workers == goal.workers;
    assert after.pendingDeletes == goal.pendingDeletes;
    assert after.objects.Keys == goal.objects.Keys;
    assert forall o :: o in goal.objects ==> after.objects[o] == goal.objects[o];
  }

  /** What a node holds mid-way is what it held at the start. */
  lemma HeldByNode(s: State, nodes: set<NodeId>, now: int, order: seq<TaskId>, m: State, node: NodeId)
    requires HoldersMatch(s) && Evicting(s, nodes, HeldBy(s, nodes), now, order, m) && node !in nodes
    ensures HeldBy(m, {node}) == HeldBy(s, {node})
    ensures HeldBy(s, {node}) !! HeldBy(s, nodes) && HeldBy(s, {node}) <= HeldBy(s, s.workers.Keys)
    ensures HeldBy(s, nodes) + HeldBy(s, {node}) == HeldBy(s, nodes + {node})
  {
    assert forall t :: t in HeldBy(s, {node}) ==> s.tasks[t].holder.value.node in s.workers.Keys;
    forall t | t in s.tasks ensures t in HeldBy(m, {node}) <==> t in HeldBy(s, {node}) {
      if t in HeldBy(s, nodes) {
        assert m.tasks[t].holder.None?;
      }
    }
  }

  lemma EvictedTables(s: State, now: int, retried: seq<TaskId>, m: State)
    requires Evicting(s, Expired(s, now), HeldBy(s, Expired(s, now)), now, retried, m)
    ensures m == EvictAll(s, now, retried)
    ensures Inv(s) ==> OutputsMatch(m) && SetsMatch(m)
  {
    if Inv(s) {
      EvictKeeps(s, Expired(s, now), HeldBy(s, Expired(s, now)), now, retried);
    }
  }
}
