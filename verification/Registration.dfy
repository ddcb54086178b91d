/** Workers coming and staying, told from the calls and the tables alone. */
module Registration {
  import opened Types
  import opened Model
  import opened Invariants

  /** A non-empty ASCII name of at most 128 letters, digits, dots, dashes and underscores. */
  predicate WellNamed(n: Name)
  {
    && 1 <= |n.text| <= 128
    && forall i :: 0 <= i < |n.text| ==>
         var c := n.text[i] as int;
         c == 45 || c == 46 || c == 95 || 48 <= c <= 57 || 65 <= c <= 90 || 97 <= c <= 122
  }

  predicate WellFormed(d: OperationDescriptor)
  {
    WellNamed(d.key.namespace) && WellNamed(d.key.name) && d.key.version != 0 && d.maxInlineArgBytes <= 65_536
  }

  /** Every descriptor is well formed and agrees with all others of its key, in the list and in the system. */
  predicate Agreeing(known: map<OperationKey, OperationDescriptor>, ds: seq<OperationDescriptor>)
  {
    && (forall k :: 0 <= k < |ds| ==> WellFormed(ds[k]) && (ds[k].key in known ==> known[ds[k].key] == ds[k]))
    && forall j, k :: 0 <= j < |ds| && 0 <= k < |ds| && ds[j].key == ds[k].key ==> ds[j] == ds[k]
  }

  /** The table holds exactly the listed descriptors. */
  predicate Lists(ops: map<OperationKey, OperationDescriptor>, ds: seq<OperationDescriptor>)
  {
    && (forall k :: 0 <= k < |ds| ==> ds[k].key in ops && ops[ds[k].key] == ds[k])
    && forall key :: key in ops ==> exists k :: 0 <= k < |ds| && ds[k].key == key
  }

  lemma WellNamedMeans(n: Name)
    ensures ValidComponent(n) <==> WellNamed(n)
  {
  }

  lemma WellFormedMeans(d: OperationDescriptor)
    ensures DescriptorError(d).None? <==> WellFormed(d)
  {
    hide WellNamed, ValidComponent;
    WellNamedMeans(d.key.namespace);
    WellNamedMeans(d.key.name);
  }

  lemma {:induction false} CollectMeans(known: map<OperationKey, OperationDescriptor>, ds: seq<OperationDescriptor>)
    ensures CollectOperations(known, ds).Ok? <==> Agreeing(known, ds)
    ensures CollectOperations(known, ds).Ok? ==> Lists(CollectOperations(known, ds).value, ds)
    decreases |ds|
  {
    if ds == [] {
      assert Agreeing(known, ds) && Lists(map[], ds);
    } else {
      hide Agreeing, Lists, WellFormed, DescriptorError;
      var init, last := ds[..|ds| - 1], ds[|ds| - 1];
      CollectMeans(known, init);
      WellFormedMeans(last);
      if CollectOperations(known, init).Ok? {
        AgreeingMore(known, init, last, CollectOperations(known, init).value);
        assert ds == init + [last];
      } else {
        AgreeingLess(known, init, last);
        assert ds == init + [last];
      }
    }
  }

  lemma AgreeingMore(known: map<OperationKey, OperationDescriptor>, init: seq<OperationDescriptor>,
                     last: OperationDescriptor, found: map<OperationKey, OperationDescriptor>)
    requires Agreeing(known, init) && Lists(found, init)
    ensures Agreeing(known, init + [last]) <==>
      && WellFormed(last) && (last.key in known ==> known[last.key] == last)
      && (last.key in found ==> found[last.key] == last)
    ensures Agreeing(known, init + [last]) ==> Lists(found[last.key := last], init + [last])
  {
    hide WellFormed;
    var ds := init + [last];
    assert ds[|init|] == last && forall k :: 0 <= k < |init| ==> ds[k] == init[k];
    if last.key in found {
      var k :| 0 <= k < |init| && init[k].key == last.key;
      assert ds[k] == init[k] && ds[k].key == ds[|init|].key;
    }
    var all := found[last.key := last];
    forall key | key in all ensures exists k :: 0 <= k < |ds| && ds[k].key == key {
      if key == last.key {
        assert ds[|init|].key == key;
      } else {
        var k :| 0 <= k < |init| && init[k].key == key;
        assert ds[k].key == key;
      }
    }
  }

  lemma AgreeingLess(known: map<OperationKey, OperationDescriptor>, init: seq<OperationDescriptor>,
                     last: OperationDescriptor)
    requires !Agreeing(known, init)
    ensures !Agreeing(known, init + [last])
  {
    var ds := init + [last];
    assert forall k :: 0 <= k < |init| ==> ds[k] == init[k];
  }

  /** The registered worker is the one described by the request. */
  predicate DescribedBy(w: Worker, r: RegisterWorker)
  {
    && w.identity.workerEpoch == r.workerEpoch && w.addr == r.addr && w.total == r.resources && w.slots == r.slots
    && Lists(w.operations, r.operations)
  }

  lemma SameLists(a: map<OperationKey, OperationDescriptor>, b: map<OperationKey, OperationDescriptor>,
                  ds: seq<OperationDescriptor>)
    requires Lists(b, ds)
    ensures Lists(a, ds) <==> a == b
  {
    if Lists(a, ds) {
      assert forall key :: key in a ==> key in b && a[key] == b[key];
      assert forall key :: key in b ==> key in a;
    }
  }

  /** A registration is granted exactly when the address is good, there is a slot, the operations agree and the node
      is new or described as it already is. A new worker is filed as described, with everything free; one that was
      there only has its lease renewed and keeps its identity. */
  lemma RegisterEffect(s: State, r: RegisterWorker, addrOk: bool, session: SessionId, now: int, leaseMs: int)
    requires WorkersMatch(s)
    ensures var out := Register(s, r, addrOk, session, now, leaseMs);
      && (out.reply.Ok? <==> addrOk && r.slots != 0 && Agreeing(s.operations, r.operations)
                             && (r.node in s.workers ==> DescribedBy(s.workers[r.node], r)))
      && (out.reply.Err? ==> out.state == s)
      && (out.reply.Ok? ==>
            && r.node in out.state.workers && DescribedBy(out.state.workers[r.node], r)
            && out.state.workers == s.workers[r.node := out.state.workers[r.node]]
            && out.state.workers[r.node].leaseDeadline == SatAdd(now, leaseMs)
            && out.reply.value == out.state.workers[r.node].identity
            && out.state.tasks == s.tasks && out.state.objects == s.objects
            && if r.node in s.workers then
                 && out.state.operations == s.operations
                 && out.state.workers[r.node] == s.workers[r.node].(leaseDeadline := SatAdd(now, leaseMs))
               else
                 && out.reply.value == WorkerIdentity(r.node, r.workerEpoch, session, s.epoch)
                 && out.state.workers[r.node].state == Alive
                 && out.state.workers[r.node].available == r.resources
                 && out.state.workers[r.node].freeSlots == r.slots
                 && out.state.operations == s.operations + out.state.workers[r.node].operations)
  {
    hide CollectOperations, Lists, Agreeing;
    CollectMeans(s.operations, r.operations);
    if CollectOperations(s.operations, r.operations).Ok? && r.node in s.workers {
      SameLists(s.workers[r.node].operations, CollectOperations(s.operations, r.operations).value, r.operations);
    }
  }

  /** The caller is the worker registered under its node id, in this very session. */
  predicate IsRegistered(s: State, i: WorkerIdentity)
  {
    && i.coordinatorEpoch == s.epoch && i.node in s.workers
    && s.workers[i.node].identity.workerEpoch == i.workerEpoch && s.workers[i.node].identity.session == i.session
  }

  /** A heartbeat of a registered worker moves its lease to now plus the lease time, and nothing else. */
  lemma HeartbeatEffect(s: State, i: WorkerIdentity, now: int, leaseMs: int)
    requires WorkersMatch(s)
    ensures Heartbeat(s, i, now, leaseMs) ==
      if !IsRegistered(s, i) then Outcome(s, Err(StaleFence))
      else Outcome(s.(workers := s.workers[i.node := s.workers[i.node].(leaseDeadline := SatAdd(now, leaseMs))]),
                   Ok(()))
  {
  }

  /** Draining a registered worker takes it out of service and changes nothing else. */
  lemma DrainEffect(s: State, i: WorkerIdentity)
    requires WorkersMatch(s)
    ensures Drain(s, i) ==
      if !IsRegistered(s, i) then Outcome(s, Err(StaleFence))
      else Outcome(s.(workers := s.workers[i.node := s.workers[i.node].(state := Draining)],
                      revision := s.revision + 1), Ok(()))
  {
  }
}
