/** The other half of the agreement: when a committed arena object has a record, so that its slot can be freed. */
module Leaks {
  import opened Types
  import opened Model
  import opened Invariants
  import Reclaim
  import opened Tables
  import R = Runs
  import E = Evolution
  import A = ArenaModel
  import opened Allocation
  import ArenaSteps
  import ArenaRuns
  import opened Agreement

  predicate CommittedIn(a: A.Arena, id: ObjectId)
  {
    id in a.live && a.live[id].committed
  }

  /** The record of a committed object: resolved, with the codec, size and checksum the arena has. */
  predicate Recorded(s: State, a: A.Arena, id: ObjectId)
    requires CommittedIn(a, id)
  {
    id in s.objects && !s.objects[id].state.Reserved? && Stored(a, id, s.objects[id])
  }

  /** Every committed object has its record. */
  ghost predicate NoLeak(c: Cluster)
  {
    forall id :: CommittedIn(c.arena, id) ==> Recorded(c.state, c.arena, id)
  }

  /** A run of the terminal-task reaper that will drop the record of a committed object. */
  ghost predicate Strands(c: Cluster, e: Event)
  {
    && e.Coordinate? && e.action.DoReap?
    && exists o :: o in DueOutputs(Stamp(c.state, e.action.now), e.action.now) && CommittedIn(c.arena, o)
  }

  // ---------------------------------------------------------------- one handler

  /** `b` has no committed object that `a` does not have, except `id`, and the others are as they were. */
  ghost predicate CommitsOnly(a: A.Arena, b: A.Arena, id: Option<ObjectId>)
  {
    forall i :: CommittedIn(b, i) && Some(i) != id ==>
      CommittedIn(a, i) && b.live[i].codec == a.live[i].codec
      && b.live[i].size == a.live[i].size && b.live[i].checksum == a.live[i].checksum
  }

  lemma NoLeakStays(s: State, s': State, a: A.Arena, b: A.Arena, id: Option<ObjectId>)
    requires NoLeak(Cluster(s, a)) && CommitsOnly(a, b, id)
    requires forall i :: i in s.objects && !s.objects[i].state.Reserved? && CommittedIn(b, i) && Some(i) != id ==>
      i in s'.objects && !s'.objects[i].state.Reserved? && E.SameContents(s.objects[i], s'.objects[i])
    requires id.Some? && CommittedIn(b, id.value) ==> Recorded(s', b, id.value)
    ensures NoLeak(Cluster(s', b))
  {
    forall i | CommittedIn(b, i) ensures Recorded(s', b, i) {
      if Some(i) != id {
        assert Recorded(s, a, i);
      }
    }
  }

  lemma AdmittedIsRecorded(s: State, id: ObjectId, a: A.Arena, bytes: Option<Bytes>)
    requires CommittedIn(a, id)
    requires Admit(s, id, a.live[id].codec, a.live[id].size, a.live[id].checksum, bytes).reply.Ok?
    ensures Recorded(Admit(s, id, a.live[id].codec, a.live[id].size, a.live[id].checksum, bytes).state, a, id)
  {
    var s' := Admit(s, id, a.live[id].codec, a.live[id].size, a.live[id].checksum, bytes).state;
    assert s'.objects[id].state.Available?;
  }

  lemma ReserveOnly(a: A.Arena, id: ObjectId, size: int, codec: Codec, checksum: Digest, mode: A.WriteMode, now: int,
                    token: RequestId, order: seq<ObjectId>)
    ensures CommitsOnly(a, A.Reserve(a, id, size, codec, checksum, mode, now, token, order).arena, None)
  {
    hide A.SlotFor, A.ReleaseAll;
    ArenaSteps.ReleaseAllRest(a, order);
  }

  /** A put leaves its object committed with the metadata given, or leaves it as it was. */
  lemma PutOnly(a: A.Arena, id: ObjectId, bytes: Bytes, codec: Codec, checksum: Digest, now: int, token: RequestId,
                order: seq<ObjectId>, b: A.Arena)
    requires b == A.Put(a, id, bytes, codec, checksum, now, token, order).0
    ensures CommitsOnly(a, b, Some(id))
    ensures CommittedIn(b, id) ==>
      || (b.live[id].codec == codec && b.live[id].size == |bytes| && b.live[id].checksum == checksum)
      || (CommittedIn(a, id) && b.live[id] == a.live[id])
  {
    hide A.Reserve;
    var r := A.Reserve(a, id, |bytes|, codec, checksum, A.Direct, now, token, order);
    ReserveOnly(a, id, |bytes|, codec, checksum, A.Direct, now, token, order);
    if r.reply.Ok? {
      ArenaRuns.ReserveGives(a, id, |bytes|, codec, checksum, A.Direct, now, token, order, r);
    } else {
      RefusedReserveLeaves(a, id, |bytes|, codec, checksum, A.Direct, now, token, order, id);
    }
  }

  lemma RefusedReserveLeaves(a: A.Arena, id: ObjectId, size: int, codec: Codec, checksum: Digest, mode: A.WriteMode,
                             now: int, token: RequestId, order: seq<ObjectId>, i: ObjectId)
    requires A.Reserve(a, id, size, codec, checksum, mode, now, token, order).reply.Err?
    ensures var b := A.Reserve(a, id, size, codec, checksum, mode, now, token, order).arena;
      i in b.live ==> i in a.live && b.live[i] == a.live[i]
  {
    hide A.SlotFor, A.ReleaseAll;
    ArenaSteps.ReleaseAllRest(a, order);
  }

  lemma PutLeaksNothing(c: Cluster, h: Bytes -> Digest, codec: Codec, bytes: Bytes, now: int, token: RequestId,
                        order: seq<ObjectId>, c': Cluster)
    requires NoLeak(c) && c' == PutEvent(c, h, codec, bytes, now, token, order)
    ensures NoLeak(c')
  {
    hide A.Put;
    var put := PutInline(c.state, h, codec, bytes);
    if |bytes| <= MAX_OBJECT_BYTES && put.reply.Ok? {
      PutOnly(c.arena, h(bytes), bytes, codec, h(bytes), now, token, order, c'.arena);
      assert CommittedIn(c.arena, h(bytes)) ==> Recorded(c.state, c.arena, h(bytes));
      NoLeakStays(c.state, c'.state, c.arena, c'.arena, Some(h(bytes)));
    } else {
      NoLeakStays(c.state, c'.state, c.arena, c'.arena, None);
    }
  }

  lemma CommitLeaksNothing(c: Cluster, id: ObjectId, token: RequestId, c': Cluster)
    requires NoLeak(c) && c' == CommitEvent(c, id, token)
    ensures NoLeak(c')
  {
    var committed := A.Commit(c.arena, id, token);
    if committed.reply.Ok? {
      var meta := committed.reply.value;
      var put := Admit(c.state, id, meta.codec, meta.size, meta.checksum, None);
      assert CommitsOnly(c.arena, c'.arena, Some(id));
      if put.reply.Ok? && Resolve(put.state, id).Ok? {
        AdmittedIsRecorded(c.state, id, committed.arena, None);
      } else {
        assert !CommittedIn(c'.arena, id);
      }
      NoLeakStays(c.state, c'.state, c.arena, c'.arena, Some(id));
    }
  }

  lemma ReleaseLeaksNothing(c: Cluster, id: ObjectId, c': Cluster)
    requires NoLeak(c) && c' == ReleaseEvent(c, id)
    ensures NoLeak(c')
  {
    if ReleaseObject(c.state, id).reply.Ok? {
      assert CommitsOnly(c.arena, c'.arena, Some(id)) && !CommittedIn(c'.arena, id);
      NoLeakStays(c.state, c'.state, c.arena, c'.arena, Some(id));
    }
  }

  /** Records that stay keep their contents and stay resolved. */
  lemma NextKeepsContents(s: State, h: Bytes -> Digest, a: R.Action, s': State, i: ObjectId)
    requires Inv(s) && R.Legal(s, h, a) && s' == R.Next(s, h, a)
    requires i in s.objects && !s.objects[i].state.Reserved? && i in s'.objects
    ensures !s'.objects[i].state.Reserved? && E.SameContents(s.objects[i], s'.objects[i])
  {
    hide Inv, R.Legal, R.Next;
    E.NextEvolves(s, h, a, s');
  }

  lemma CoordinateLeaksNothing(c: Cluster, h: Bytes -> Digest, a: R.Action, c': Cluster)
    requires Inv(c.state) && NoLeak(c) && StateOnly(a) && R.Legal(c.state, h, a) && !a.DoReap?
    requires c' == Cluster(R.Next(c.state, h, a), c.arena)
    ensures NoLeak(c')
  {
    hide Inv, R.Legal, R.Next, Stored;
    if a.DoSubmit? {
      SubmitKeepsRecords(c.state, h, a, c'.state);
    } else {
      NextStays(c.state, h, a, c'.state);
    }
    forall i | i in c.state.objects && !c.state.objects[i].state.Reserved?
      ensures i in c'.state.objects && !c'.state.objects[i].state.Reserved?
      ensures E.SameContents(c.state.objects[i], c'.state.objects[i])
    {
      assert i in c'.state.objects.Keys;
      NextKeepsContents(c.state, h, a, c'.state, i);
    }
    NoLeakStays(c.state, c'.state, c.arena, c'.arena, None);
  }

  lemma SubmitKeepsRecords(s: State, h: Bytes -> Digest, a: R.Action, s': State)
    requires a.DoSubmit? && s' == R.Next(s, h, a)
    ensures s.objects.Keys <= s'.objects.Keys
    ensures s'.tasks == s.tasks || (a.task in s'.tasks && s'.tasks[a.task].output == a.output
                                    && s'.tasks == s.tasks[a.task := s'.tasks[a.task]])
  {
    hide SubmitCheck;
  }

  lemma ReapLeaksIff(c: Cluster, h: Bytes -> Digest, a: R.Action, c': Cluster)
    requires Inv(c.state) && NoLeak(c) && R.Legal(c.state, h, a) && a.DoReap?
    requires c' == Cluster(R.Next(c.state, h, a), c.arena)
    ensures NoLeak(c') <==> !Strands(c, Coordinate(a))
  {
    var due := DueOutputs(Stamp(c.state, a.now), a.now);
    ReapRemoves(c.state, h, a, c'.state);
    hide Inv, R.Legal, R.Next, Stored, DueOutputs;
    if Strands(c, Coordinate(a)) {
      var o :| o in due && CommittedIn(c.arena, o);
      assert CommittedIn(c'.arena, o) && !Recorded(c'.state, c'.arena, o);
    } else {
      forall i | i in c.state.objects && !c.state.objects[i].state.Reserved? && CommittedIn(c.arena, i)
        ensures i in c'.state.objects && !c'.state.objects[i].state.Reserved?
        ensures E.SameContents(c.state.objects[i], c'.state.objects[i])
      {
        assert i !in due;
        NextKeepsContents(c.state, h, a, c'.state, i);
      }
      NoLeakStays(c.state, c'.state, c.arena, c'.arena, None);
    }
  }

  lemma ReapRemoves(s: State, h: Bytes -> Digest, a: R.Action, s': State)
    requires Inv(s) && R.Legal(s, h, a) && a.DoReap? && s' == R.Next(s, h, a)
    ensures s'.objects == s.objects - DueOutputs(Stamp(s, a.now), a.now)
  {
    hide Conserved, QueueMatches, LineageMatches, HoldersMatch;
    Reclaim.ReapExact(s, a.now, a.due);
  }

  /** From a state without leaks, a handler leaves one exactly when it is such a run of the reaper. */
  lemma HandleLeaksIff(c: Cluster, h: Bytes -> Digest, e: Event, c': Cluster)
    requires ClusterInv(c) && NoLeak(c) && LegalEvent(c, h, e) && c' == Handle(c, h, e)
    ensures NoLeak(c') <==> !Strands(c, e)
  {
    hide Inv, ArenaInv, Agree, NoLeak, R.Legal, R.Next, PutEvent, CommitEvent, ReleaseEvent;
    match e
    case Coordinate(a) =>
      if a.DoReap? {
        ReapLeaksIff(c, h, a, c');
      } else {
        CoordinateLeaksNothing(c, h, a, c');
      }
    case PutInlineObject(codec, bytes, now, token, order) =>
      PutLeaksNothing(c, h, codec, bytes, now, token, order, c');
    case ReserveArena(id, codec, size, checksum, mode, now, token, order) =>
      ReserveOnly(c.arena, id, size, codec, checksum, mode, now, token, order);
      ArenaOnlyLeaksNothing(c, c');
    case WriteArena(id, token, rel, chunk, now) => ArenaOnlyLeaksNothing(c, c');
    case WriteMapping(id, rel, chunk) => ArenaOnlyLeaksNothing(c, c');
    case CommitArena(id, token) => CommitLeaksNothing(c, id, token, c');
    case ReleaseEverywhere(id) => ReleaseLeaksNothing(c, id, c');
  }

  lemma ArenaOnlyLeaksNothing(c: Cluster, c': Cluster)
    requires NoLeak(c) && c'.state == c.state && CommitsOnly(c.arena, c'.arena, None)
    ensures NoLeak(c')
  {
    NoLeakStays(c.state, c'.state, c.arena, c'.arena, None);
  }

  // ---------------------------------------------------------------- runs

  /** In any run, no committed object was without its record up to state `k` exactly when no run of the reaper
      before dropped the record of a committed object. */
  lemma {:induction false} RunLeaksIff(h: Bytes -> Digest, clusters: seq<Cluster>, events: seq<Event>, k: nat)
    requires IsRun(h, clusters, events) && k < |clusters|
    ensures (forall j :: 0 <= j <= k ==> NoLeak(clusters[j])) <==>
      (forall j :: 0 <= j < k ==> !Strands(clusters[j], events[j]))
    decreases k
  {
    hide ClusterInv, NoLeak, Strands, LegalEvent, Handle;
    if k == 0 {
      FreshHasNoLeak(clusters[0]);
    } else {
      RunLeaksIff(h, clusters, events, k - 1);
      RunAgrees(h, clusters, events, k - 1);
      assert StepAt(h, clusters, events, k - 1);
      if NoLeak(clusters[k - 1]) {
        HandleLeaksIff(clusters[k - 1], h, events[k - 1], clusters[k]);
      }
    }
  }

  lemma FreshHasNoLeak(c: Cluster)
    requires c.arena == A.Fresh(c.arena.mem)
    ensures NoLeak(c)
  {
  }

  /** While nothing has leaked, what a reader is sent is sound: an offset leads to exactly the committed bytes, with
      the codec, size and checksum the payload names, and without an offset an object that no worker owns comes
      with its bytes. */
  lemma OffersAreSound(h: Bytes -> Digest, clusters: seq<Cluster>, events: seq<Event>, k: nat, id: ObjectId)
    requires IsRun(h, clusters, events) && k < |clusters| && NoLeak(clusters[k])
    requires GetReply(clusters[k], id).Ok?
    ensures var c := clusters[k];
      var offer := GetReply(c, id).value;
      var p := offer.payload;
      && p.id == id
      && (offer.offset.Some? ==>
            && A.Read(c.arena, id) == Some(A.Slice(c.arena.mem, offer.offset.value, p.size))
            && |A.Slice(c.arena.mem, offer.offset.value, p.size)| == p.size && p.bytes == None
            && c.arena.live[id].codec == p.codec && c.arena.live[id].checksum == p.checksum)
      && (offer.offset.None? && c.state.objects[id].owner.None? ==> p.bytes.Some?)
  {
    hide Inv, ArenaInv, LegalEvent, Handle;
    RunAgrees(h, clusters, events, k);
    var c := clusters[k];
    if CommittedIn(c.arena, id) {
      assert Recorded(c.state, c.arena, id);
      ObjectInSlot(c.arena, id);
    } else {
      assert !ArenaBacked(c.state, id);
    }
  }

  // ---------------------------------------------------------------- a condition on the clients

  predicate IsOutput(s: State, id: ObjectId)
  {
    exists t :: t in s.tasks && s.tasks[t].output == id
  }

  /** The request commits, or puts inline, an object under the id of a task's output. */
  predicate TargetsOutput(c: Cluster, h: Bytes -> Digest, e: Event)
  {
    (e.CommitArena? && IsOutput(c.state, e.id)) || (e.PutInlineObject? && IsOutput(c.state, h(e.bytes)))
  }

  /** No task's output is committed in the arena. */
  ghost predicate Separate(c: Cluster)
  {
    forall t :: t in c.state.tasks ==> !CommittedIn(c.arena, c.state.tasks[t].output)
  }

  lemma SeparateStrandsNothing(c: Cluster, e: Event)
    requires Separate(c)
    ensures !Strands(c, e)
  {
    if e.Coordinate? && e.action.DoReap? {
      var s' := Stamp(c.state, e.action.now);
      forall o | o in DueOutputs(s', e.action.now) ensures !CommittedIn(c.arena, o) {
        var t :| t in s'.tasks && s'.tasks[t].output == o;
        assert c.state.tasks[t].output == o;
      }
    }
  }

  /** Every task after a coordinator step was there before with the same output, or has a fresh one. */
  lemma NextOutputs(s: State, h: Bytes -> Digest, a: R.Action, s': State, t: TaskId)
    requires Inv(s) && StateOnly(a) && R.Legal(s, h, a) && s' == R.Next(s, h, a) && t in s'.tasks
    ensures (t in s.tasks && s.tasks[t].output == s'.tasks[t].output) || s'.tasks[t].output !in s.objects
  {
    hide Inv, R.Next;
    if t in s.tasks {
      E.NextEvolves(s, h, a, s');
    } else if a.DoSubmit? {
      SubmitKeepsRecords(s, h, a, s');
    } else {
      NoNewTasks(s, h, a, s', t);
    }
  }

  lemma CoordinateSeparate(c: Cluster, h: Bytes -> Digest, a: R.Action, c': Cluster)
    requires Inv(c.state) && NoLeak(c) && Separate(c) && StateOnly(a) && R.Legal(c.state, h, a)
    requires c' == Cluster(R.Next(c.state, h, a), c.arena)
    ensures Separate(c')
  {
    hide Inv, R.Legal, R.Next, Stored;
    forall t | t in c'.state.tasks ensures !CommittedIn(c'.arena, c'.state.tasks[t].output) {
      NextOutputs(c.state, h, a, c'.state, t);
      assert CommittedIn(c.arena, c'.state.tasks[t].output) ==>
        Recorded(c.state, c.arena, c'.state.tasks[t].output);
    }
  }

  lemma SeparateStays(c: Cluster, c': Cluster, id: Option<ObjectId>)
    requires Separate(c) && CommitsOnly(c.arena, c'.arena, id)
    requires forall t :: t in c'.state.tasks ==>
      t in c.state.tasks && c'.state.tasks[t].output == c.state.tasks[t].output
    requires id.Some? && CommittedIn(c'.arena, id.value) ==> !IsOutput(c.state, id.value)
    ensures Separate(c')
  {
  }

  lemma PutSeparate(c: Cluster, h: Bytes -> Digest, codec: Codec, bytes: Bytes, now: int, token: RequestId,
                    order: seq<ObjectId>, c': Cluster)
    requires Separate(c) && !IsOutput(c.state, h(bytes)) && c' == PutEvent(c, h, codec, bytes, now, token, order)
    ensures Separate(c')
  {
    hide A.Put, Separate;
    var put := PutInline(c.state, h, codec, bytes);
    if |bytes| <= MAX_OBJECT_BYTES && put.reply.Ok? {
      PutOnly(c.arena, h(bytes), bytes, codec, h(bytes), now, token, order, c'.arena);
    }
    SeparateStays(c, c', Some(h(bytes)));
  }

  lemma CommitSeparate(c: Cluster, id: ObjectId, token: RequestId, c': Cluster)
    requires Separate(c) && !IsOutput(c.state, id) && c' == CommitEvent(c, id, token)
    ensures Separate(c')
  {
    hide Separate, Resolve;
    SeparateStays(c, c', Some(id));
  }

  lemma ReleaseSeparate(c: Cluster, id: ObjectId, c': Cluster)
    requires Separate(c) && c' == ReleaseEvent(c, id)
    ensures Separate(c')
  {
    hide Separate;
    SeparateStays(c, c', None);
  }

  lemma HandleSeparate(c: Cluster, h: Bytes -> Digest, e: Event, c': Cluster)
    requires ClusterInv(c) && NoLeak(c) && Separate(c) && LegalEvent(c, h, e) && c' == Handle(c, h, e)
    requires !TargetsOutput(c, h, e)
    ensures Separate(c')
  {
    hide Inv, ArenaInv, Agree, NoLeak, Separate, R.Legal, R.Next, PutEvent, CommitEvent, ReleaseEvent, IsOutput;
    match e
    case Coordinate(a) => CoordinateSeparate(c, h, a, c');
    case PutInlineObject(codec, bytes, now, token, order) =>
      PutSeparate(c, h, codec, bytes, now, token, order, c');
    case ReserveArena(id, codec, size, checksum, mode, now, token, order) =>
      ReserveOnly(c.arena, id, size, codec, checksum, mode, now, token, order);
      SeparateStays(c, c', None);
    case WriteArena(id, token, rel, chunk, now) => SeparateStays(c, c', None);
    case WriteMapping(id, rel, chunk) => SeparateStays(c, c', None);
    case CommitArena(id, token) => CommitSeparate(c, id, token, c');
    case ReleaseEverywhere(id) => ReleaseSeparate(c, id, c');
  }

  lemma FreshIsSeparate(c: Cluster)
    requires c.arena == A.Fresh(c.arena.mem)
    ensures Separate(c)
  {
  }

  /** Clients that never commit or put under the id of a task's output never cause a leak. */
  lemma {:induction false} CarefulClientsLeakNothing(h: Bytes -> Digest, clusters: seq<Cluster>, events: seq<Event>,
                                                     k: nat)
    requires IsRun(h, clusters, events) && k < |clusters|
    requires forall j :: 0 <= j < k ==> !TargetsOutput(clusters[j], h, events[j])
    ensures NoLeak(clusters[k]) && Separate(clusters[k])
    decreases k
  {
    hide ClusterInv, NoLeak, Separate, Strands, LegalEvent, Handle, TargetsOutput;
    if k == 0 {
      FreshHasNoLeak(clusters[0]);
      FreshIsSeparate(clusters[0]);
    } else {
      CarefulClientsLeakNothing(h, clusters, events, k - 1);
      RunAgrees(h, clusters, events, k - 1);
      assert StepAt(h, clusters, events, k - 1);
      SeparateStrandsNothing(clusters[k - 1], events[k - 1]);
      HandleLeaksIff(clusters[k - 1], h, events[k - 1], clusters[k]);
      HandleSeparate(clusters[k - 1], h, events[k - 1], clusters[k]);
    }
  }
}
