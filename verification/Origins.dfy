/** Who wrote what a reader gets: every stored object is exactly what some call put or some worker reported, it stays
    so while it is kept, and it is lost only with its owner. */
module Origins {
  import opened Types
  import opened Model
  import opened Invariants
  import opened Runs
  import opened Evolution
  import opened Reports
  import opened Reconciliation
  import opened Leases
  import opened Causes

  /** The call wrote this record under this id: a client's bytes under their digest, a client's arena object, or a
      worker's report of a task's output. */
  predicate Wrote(h: Bytes -> Digest, a: Action, o: ObjectId, r: ObjectRecord)
  {
    match a
    case DoPut(codec, bytes) =>
      o == h(bytes) && r == ObjectRecord(Available, Some(codec), Some(bytes), Some(|bytes|), Some(h(bytes)),
                                         Some(Name("coordinator")), None)
    case DoPutMeta(id, codec, size, checksum) =>
      o == id && r == ObjectRecord(Available, Some(codec), None, Some(size), Some(checksum),
                                   Some(Name("coordinator")), None)
    case DoComplete(i, c, _) =>
      o == c.output && r == ObjectRecord(Available, Some(c.codec), c.bytes, Some(c.size), Some(c.checksum),
                                         Some(c.location), Some(i.node))
    case _ => false
  }

  /** The record's owner was evicted in this step: inline bytes are served on, anything else is lost. */
  predicate Orphaned(s: State, a: Action, was: ObjectRecord, r: ObjectRecord)
  {
    && a.DoExpire? && was.state == Available && was.owner.Some? && Lapsed(s, a.now, was.owner.value)
    && r == if was.bytes.Some? then was.(owner := None, location := Some(Name("coordinator")))
            else was.(owner := None, location := None, state := Lost)
  }

  /** Where a record that is available or lost after a step comes from. */
  predicate Traced(s: State, h: Bytes -> Digest, a: Action, s': State, o: ObjectId)
    requires o in s'.objects
  {
    || (o in s.objects && s'.objects[o] == s.objects[o])
    || ((o in s.objects ==> s.objects[o].state == Reserved) && Wrote(h, a, o, s'.objects[o]))
    || (o in s.objects && Orphaned(s, a, s.objects[o], s'.objects[o]))
  }

  lemma PutTraced(s: State, h: Bytes -> Digest, a: Action, s': State, o: ObjectId)
    requires (a.DoPut? || a.DoPutMeta?) && s' == Next(s, h, a) && o in s'.objects
    ensures Traced(s, h, a, s', o)
  {
    hide Admit;
    match a
    case DoPut(codec, bytes) => AdmitFiles(s, h(bytes), codec, |bytes|, h(bytes), Some(bytes), o);
    case DoPutMeta(id, codec, size, checksum) => AdmitFiles(s, id, codec, size, checksum, None, o);
  }

  lemma AdmitFiles(s: State, id: ObjectId, codec: Codec, size: int, checksum: Digest, bytes: Option<Bytes>, o: ObjectId)
    ensures var s' := Admit(s, id, codec, size, checksum, bytes).state;
      o in s'.objects ==>
        || (o in s.objects && s'.objects[o] == s.objects[o])
        || (o == id && o !in s.objects
            && s'.objects[o] == ObjectRecord(Available, Some(codec), bytes, Some(size), Some(checksum),
                                             Some(Name("coordinator")), None))
  {
  }

  lemma CompleteTraced(s: State, h: Bytes -> Digest, a: Action, s': State, o: ObjectId)
    requires Inv(s) && a.DoComplete? && s' == Next(s, h, a)
    requires o in s'.objects && (s'.objects[o].state == Available || s'.objects[o].state == Lost)
    ensures Traced(s, h, a, s', o)
  {
    hide Complete, EndsAs, HandsBack, Conserved, LineageMatches, QueueMatches;
    var r, t := a.report, a.report.fence.task;
    CompleteEffect(s, h, a.i, r, a.order);
    if s' != s {
      EndsQuietly(s, s', t, s.tasks[t].(state := Succeeded, holder := None),
                  ObjectRecord(Available, Some(r.codec), r.bytes, Some(r.size), Some(r.checksum), Some(r.location),
                               Some(a.i.node)));
      assert s.objects[s.tasks[t].output].state == Reserved;
    }
  }

  lemma FailTraced(s: State, h: Bytes -> Digest, a: Action, s': State, o: ObjectId)
    requires Inv(s) && a.DoFail? && s' == Next(s, h, a)
    requires o in s'.objects && (s'.objects[o].state == Available || s'.objects[o].state == Lost)
    ensures Traced(s, h, a, s', o)
  {
    hide Fail, EndsAs, HandsBack, Conserved, LineageMatches, QueueMatches, BackoffAfter;
    var t := a.f.task;
    FailEffect(s, a.i, a.f, a.message, a.kind, a.now, a.order);
    if Fail(s, a.i, a.f, a.message, a.kind, a.now, a.order).reply == Ok(true) {
      EndsQuietly(s, s', t, s.tasks[t].(state := TaskState.Failed(a.message), holder := None),
                  s.objects[s.tasks[t].output].(state := ProducerFailed));
    }
  }

  lemma AckTraced(s: State, h: Bytes -> Digest, a: Action, s': State, o: ObjectId)
    requires Inv(s) && a.DoAckCancel? && s' == Next(s, h, a)
    requires o in s'.objects && (s'.objects[o].state == Available || s'.objects[o].state == Lost)
    ensures Traced(s, h, a, s', o)
  {
    hide AckCancel, EndsAs, HandsBack, Conserved, LineageMatches, QueueMatches;
    var t := a.f.task;
    AckCancelEffect(s, a.i, a.f, a.order);
    if s' != s {
      EndsQuietly(s, s', t, s.tasks[t].(state := TaskState.Cancelled, holder := None),
                  s.objects[s.tasks[t].output].(state := ProducerCancelled));
    }
  }

  lemma CancelTraced(s: State, h: Bytes -> Digest, a: Action, s': State, o: ObjectId)
    requires Inv(s) && a.DoCancel? && s' == Next(s, h, a)
    requires o in s'.objects && (s'.objects[o].state == Available || s'.objects[o].state == Lost)
    ensures Traced(s, h, a, s', o)
  {
    hide Cancel, EndsAs, Conserved, LineageMatches, QueueMatches;
    var t := a.task;
    CancelEffect(s, t, a.order);
    if t in s.tasks && (s.tasks[t].state == Waiting || s.tasks[t].state == Runnable) {
      EndsQuietly(s, s', t, s.tasks[t].(state := TaskState.Cancelled),
                  s.objects[s.tasks[t].output].(state := ProducerCancelled));
    }
  }

  lemma ExpireTraced(s: State, h: Bytes -> Digest, a: Action, s': State, o: ObjectId)
    requires Inv(s) && a.DoExpire? && Legal(s, h, a) && s' == Next(s, h, a)
    requires o in s'.objects && (s'.objects[o].state == Available || s'.objects[o].state == Lost)
    ensures Traced(s, h, a, s', o)
  {
    hide Inv, ExpireWorkers, RecordAfter, Retried, HeldBy, Expired;
    ExpiredRecord(s, a.now, a.retried, a.order, s', o);
    RecordAfterTraced(s, a, o);
  }

  lemma ExpiredRecord(s: State, now: int, retried: seq<TaskId>, order: seq<TaskId>, s': State, o: ObjectId)
    requires Inv(s) && s' == ExpireWorkers(s, now, retried, order)
    requires IsOrder(retried, Retried(s, HeldBy(s, Expired(s, now))))
    requires o in s'.objects && (s'.objects[o].state == Available || s'.objects[o].state == Lost)
    ensures o in s.objects && s'.objects[o] == RecordAfter(s, now, o)
  {
    hide ExpireWorkers, Reconciled, RecordAfter, Inv;
    ExpireEffect(s, now, retried, order, s');
    ReconciledRecords(TasksAfter(s, now), ObjectsAfter(s, now), s', o);
  }

  lemma RecordAfterTraced(s: State, a: Action, o: ObjectId)
    requires a.DoExpire? && o in s.objects
    ensures var r := RecordAfter(s, a.now, o);
      r.state == Available || r.state == Lost ==> r == s.objects[o] || Orphaned(s, a, s.objects[o], r)
  {
    hide ProducerEnds;
  }

  lemma RecordStep(s: State, h: Bytes -> Digest, a: Action, s': State, o: ObjectId)
    requires Inv(s) && Legal(s, h, a) && s' == Next(s, h, a)
    requires o in s'.objects && (s'.objects[o].state == Available || s'.objects[o].state == Lost)
    ensures Traced(s, h, a, s', o)
  {
    hide Inv, Legal, Next, Wrote, Orphaned;
    if Harmless(a) {
      HarmlessStep(s, h, a, s');
    } else {
      match a
      case DoComplete(_, _, _) => CompleteTraced(s, h, a, s', o);
      case DoFail(_, _, _, _, _, _) => FailTraced(s, h, a, s', o);
      case DoAckCancel(_, _, _) => AckTraced(s, h, a, s', o);
      case DoCancel(_, _) => CancelTraced(s, h, a, s', o);
      case DoExpire(_, _, _) => ExpireTraced(s, h, a, s', o);
      case DoPut(_, _) => PutTraced(s, h, a, s', o);
      case DoPutMeta(_, _, _, _) => PutTraced(s, h, a, s', o);
    }
  }

  // ---------------------------------------------------------------- runs

  /** Every stored object was written by a call earlier in the run, and still has exactly the contents that call gave
      it. Only its place changes: after its owner is gone, its inline bytes are served by the coordinator. */
  lemma {:induction false} StoredAsWritten(h: Bytes -> Digest, states: seq<State>, actions: seq<Action>, k: nat,
                                           o: ObjectId)
    returns (i: nat, r: ObjectRecord)
    requires IsRun(h, states, actions) && k < |states| && o in states[k].objects
    requires states[k].objects[o].state == Available || states[k].objects[o].state == Lost
    ensures i < k && Wrote(h, actions[i], o, r) && SameContents(r, states[k].objects[o])
    ensures states[k].objects[o] == r || (r.owner.Some? && states[k].objects[o].owner == None)
    decreases k
  {
    hide Inv, Legal, Next, Wrote;
    assert k > 0;
    RunInv(h, states, actions, k - 1);
    assert StepAt(h, states, actions, k - 1);
    RecordStep(states[k - 1], h, actions[k - 1], states[k], o);
    if (o in states[k - 1].objects ==> states[k - 1].objects[o].state == Reserved)
       && Wrote(h, actions[k - 1], o, states[k].objects[o]) {
      i, r := k - 1, states[k].objects[o];
    } else {
      i, r := StoredAsWritten(h, states, actions, k - 1, o);
    }
  }

  /** So whatever a reader is sent, some call wrote it: codec, size, checksum and bytes are those of a put, of an
      arena registration, or of a completion report. */
  lemma ResolvedAsWritten(h: Bytes -> Digest, states: seq<State>, actions: seq<Action>, k: nat, id: ObjectId)
    returns (i: nat)
    requires IsRun(h, states, actions) && k < |states| && Resolve(states[k], id).Ok?
    ensures var p := Resolve(states[k], id).value;
      && i < k && p.id == id
      && match actions[i]
         case DoPut(codec, bytes) =>
           id == h(bytes) && p.codec == codec && p.size == |bytes| && p.checksum == id && p.bytes == Some(bytes)
         case DoPutMeta(o, codec, size, checksum) =>
           id == o && p.codec == codec && p.size == size && p.checksum == checksum && p.bytes == None
         case DoComplete(_, c, _) =>
           id == c.output && p.codec == c.codec && p.size == c.size && p.checksum == c.checksum && p.bytes == c.bytes
         case _ => false
  {
    RunInv(h, states, actions, k);
    hide Inv, IsRun, Resolve;
    ResolveMeans(states[k], id);
    var r;
    i, r := StoredAsWritten(h, states, actions, k, id);
  }

  /** An object is lost only when its owner's lease ran out while nothing but that worker had its bytes. */
  lemma {:induction false} LostHasCause(h: Bytes -> Digest, states: seq<State>, actions: seq<Action>, k: nat,
                                        o: ObjectId)
    returns (j: nat)
    requires IsRun(h, states, actions) && k < |states| && o in states[k].objects && states[k].objects[o].state == Lost
    ensures j < k && actions[j].DoExpire? && o in states[j].objects && states[j].objects[o].state == Available
    ensures states[j].objects[o].bytes == None && states[j].objects[o].owner.Some?
    ensures Lapsed(states[j], actions[j].now, states[j].objects[o].owner.value)
    decreases k
  {
    hide Inv, Legal, Next;
    assert k > 0;
    RunInv(h, states, actions, k - 1);
    assert StepAt(h, states, actions, k - 1);
    RecordStep(states[k - 1], h, actions[k - 1], states[k], o);
    if o in states[k - 1].objects && states[k - 1].objects[o].state == Lost {
      j := LostHasCause(h, states, actions, k - 1, o);
    } else {
      j := k - 1;
    }
  }

  /** What a client put stays readable, byte for byte, as long as it is not released: no worker's end takes it. */
  lemma {:induction false} PutStaysReadable(h: Bytes -> Digest, states: seq<State>, actions: seq<Action>, i: nat,
                                            j: nat, codec: Codec, bytes: Bytes)
    requires IsRun(h, states, actions) && i < j < |states| && actions[i] == DoPut(codec, bytes)
    requires h(bytes) !in states[i].objects && PutInline(states[i], h, codec, bytes).reply.Ok?
    requires forall k :: i < k <= j ==> h(bytes) in states[k].objects
    ensures Resolve(states[j], h(bytes))
            == Ok(ObjectPayload(h(bytes), codec, |bytes|, h(bytes), Name("coordinator"), Some(bytes)))
    ensures states[j].objects[h(bytes)].state == Available && states[j].objects[h(bytes)].owner == None
    decreases j
  {
    hide Inv, Legal, Next;
    assert StepAt(h, states, actions, j - 1);
    if i < j - 1 {
      PutStaysReadable(h, states, actions, i, j - 1, codec, bytes);
      RunInv(h, states, actions, j - 1);
      NextEvolves(states[j - 1], h, actions[j - 1], states[j]);
      RecordStep(states[j - 1], h, actions[j - 1], states[j], h(bytes));
    } else {
      PutStored(states[i], h, codec, bytes);
    }
  }

  lemma PutStored(s: State, h: Bytes -> Digest, codec: Codec, bytes: Bytes)
    requires h(bytes) !in s.objects && PutInline(s, h, codec, bytes).reply.Ok?
    ensures var s' := Next(s, h, DoPut(codec, bytes));
      && h(bytes) in s'.objects && s'.objects[h(bytes)].state == Available && s'.objects[h(bytes)].owner == None
      && Resolve(s', h(bytes))
         == Ok(ObjectPayload(h(bytes), codec, |bytes|, h(bytes), Name("coordinator"), Some(bytes)))
  {
  }
}
