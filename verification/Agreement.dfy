/** The request handlers keep the object table and the arena in agreement. */
module Agreement {
  import opened Types
  import opened Resources
  import opened Model
  import opened Invariants
  import opened Runs
  import opened Scheduling
  import Admission
  import Reclaim
  import A = ArenaModel
  import opened Allocation
  import ArenaSteps
  import ArenaRuns

  /** A record whose bytes can only be in the arena: available, owned by no worker, nothing inline. */
  predicate ArenaBacked(s: State, id: ObjectId)
  {
    id in s.objects && s.objects[id].state.Available? && s.objects[id].owner.None? && s.objects[id].bytes.None?
  }

  /** The arena holds a committed object with the record's codec, size and checksum. */
  predicate Stored(arena: A.Arena, id: ObjectId, o: ObjectRecord)
  {
    id in arena.live && arena.live[id].committed && o.codec == Some(arena.live[id].codec)
    && o.size == Some(arena.live[id].size) && o.checksum == Some(arena.live[id].checksum)
  }

  ghost predicate Agree(s: State, arena: A.Arena)
  {
    forall id :: ArenaBacked(s, id) ==> Stored(arena, id, s.objects[id])
  }

  // ---------------------------------------------------------------- the coordinator's own steps

  /** No record becomes arena-backed, and those that stay so are unchanged. */
  ghost predicate BackedShrinks(s: State, s': State)
  {
    forall id :: ArenaBacked(s', id) ==> id in s.objects && s'.objects[id] == s.objects[id]
  }

  lemma SettleShrinks(s: State, order: seq<TaskId>)
    ensures BackedShrinks(s, Settle(s, order))
  {
  }

  lemma StartedShrinks(s: State, i: WorkerIdentity, f: TaskFence, s': State)
    requires s' == Started(s, i, f).state
    ensures BackedShrinks(s, s')
  {
  }

  lemma CompleteShrinks(s: State, h: Bytes -> Digest, i: WorkerIdentity, r: TaskCompletion, order: seq<TaskId>,
                        s': State)
    requires s' == Complete(s, h, i, r, order).state
    ensures BackedShrinks(s, s')
  {
    if CompleteVerdict(s, h, i, r).Apply? {
      assert BackedShrinks(s, CompleteMid(s, i, r));
      SettleShrinks(CompleteMid(s, i, r), order);
    }
  }

  lemma FailShrinks(s: State, i: WorkerIdentity, f: TaskFence, message: string, kind: FailureClass, now: int,
                    order: seq<TaskId>, s': State)
    requires s' == Fail(s, i, f, message, kind, now, order).state
    ensures BackedShrinks(s, s')
  {
    if FailVerdict(s, i, f).Apply? {
      assert BackedShrinks(s, FailMid(s, i, f, message, kind, now));
      SettleShrinks(FailMid(s, i, f, message, kind, now), order);
    }
  }

  lemma AckShrinks(s: State, i: WorkerIdentity, f: TaskFence, order: seq<TaskId>, s': State)
    requires s' == AckCancel(s, i, f, order).state
    ensures BackedShrinks(s, s')
  {
    if AckVerdict(s, i, f).Apply? {
      assert BackedShrinks(s, AckMid(s, i, f));
      SettleShrinks(AckMid(s, i, f), order);
    }
  }

  lemma CancelShrinks(s: State, t: TaskId, order: seq<TaskId>, s': State)
    requires s' == Cancel(s, t, order).state
    ensures BackedShrinks(s, s')
  {
    hide Settle;
    if CancelVerdict(s, t).Apply? && s.tasks[t].holder.None? {
      assert BackedShrinks(s, CancelMid(s, t));
      SettleShrinks(CancelMid(s, t), order);
    }
  }

  lemma ExpireShrinks(s: State, now: int, retried: seq<TaskId>, order: seq<TaskId>, s': State)
    requires s' == ExpireWorkers(s, now, retried, order)
    ensures BackedShrinks(s, s')
  {
    if Expired(s, now) != {} {
      var mid := EvictAll(s, now, retried);
      assert BackedShrinks(s, mid);
      SettleShrinks(mid, order);
    }
  }

  lemma {:induction false} ReleaseAllShrinks(s: State, order: seq<ObjectId>, s': State)
    requires s' == ReleaseAll(s, order).0
    ensures BackedShrinks(s, s')
    decreases |order|
  {
    if order != [] {
      ReleaseAllShrinks(s, order[..|order| - 1], ReleaseAll(s, order[..|order| - 1]).0);
    }
  }

  lemma SubmitShrinks(s: State, op: OperationKey, args: seq<TaskArg>, resources: ResourceSet, maxAttempts: int,
                      id: TaskId, output: ObjectId, s': State)
    requires s' == Submit(s, op, args, resources, maxAttempts, id, output).state
    ensures BackedShrinks(s, s')
  {
  }

  lemma AssignShrinks(s: State, node: NodeId, now: int, lease: LeaseId, s': State)
    requires s' == AssignNext(s, node, now, lease).state
    ensures s'.objects == s.objects
  {
    if node in s.workers && s.workers[node].state.Alive? && s.workers[node].freeSlots != 0 {
      AssignNextState(s, node, now, lease);
    }
  }

  lemma RegisterShrinks(s: State, r: RegisterWorker, addrOk: bool, session: SessionId, now: int, leaseMs: int)
    ensures Register(s, r, addrOk, session, now, leaseMs).state.objects == s.objects
  {
  }

  lemma PollShrinks(s: State, i: WorkerIdentity, now: int, lease: LeaseId)
    ensures PollState(s, i, now, lease).objects == s.objects
  {
    var t := TakeDeletes(s, i.node).0;
    AssignShrinks(t, i.node, now, lease, AssignNext(t, i.node, now, lease).state);
  }

  /** Calls that reach the coordinator alone, not the arena. */
  predicate StateOnly(a: Action)
  {
    !a.DoPut? && !a.DoPutMeta? && !a.DoRelease?
  }

  lemma ReportShrinks(s: State, h: Bytes -> Digest, a: Action, s': State)
    requires FromHolder(a) && s' == Next(s, h, a)
    ensures BackedShrinks(s, s')
  {
    match a
    case DoStarted(i, f) => StartedShrinks(s, i, f, s');
    case DoComplete(i, report, order) => CompleteShrinks(s, h, i, report, order, s');
    case DoFail(i, f, message, kind, now, order) => FailShrinks(s, i, f, message, kind, now, order, s');
    case DoAckCancel(i, f, order) => AckShrinks(s, i, f, order, s');
  }

  lemma NextShrinks(s: State, h: Bytes -> Digest, a: Action, s': State)
    requires StateOnly(a) && s' == Next(s, h, a)
    ensures BackedShrinks(s, s')
  {
    if FromHolder(a) {
      ReportShrinks(s, h, a, s');
    } else {
      match a
      case DoSubmit(op, args, resources, maxAttempts, task, output) =>
        SubmitShrinks(s, op, args, resources, maxAttempts, task, output, s');
      case DoAssign(node, now, lease) => AssignShrinks(s, node, now, lease, s');
      case DoPoll(i, now, lease) => PollShrinks(s, i, now, lease);
      case DoRegister(r, addrOk, session, now, leaseMs) => RegisterShrinks(s, r, addrOk, session, now, leaseMs);
      case DoCancel(task, order) => CancelShrinks(s, task, order, s');
      case DoExpire(now, retried, order) => ExpireShrinks(s, now, retried, order, s');
      case DoReap(now, due) => ReleaseAllShrinks(Stamp(s, now), due, s');
      case _ => {}
    }
  }

  // ---------------------------------------------------------------- the handlers

  /** Coordinator and arena, which one handler works on at a time. */
  datatype Cluster = Cluster(state: State, arena: A.Arena)

  datatype Event =
    | Coordinate(action: Action)
    | PutInlineObject(codec: Codec, bytes: Bytes, now: int, token: RequestId, order: seq<ObjectId>)
    | ReserveArena(id: ObjectId, codec: Codec, size: int, checksum: Digest, mode: A.WriteMode, now: int,
                   token: RequestId, order: seq<ObjectId>)
    | WriteArena(id: ObjectId, token: RequestId, rel: int, chunk: Bytes, now: int)
    | WriteMapping(id: ObjectId, rel: int, chunk: Bytes)
    | CommitArena(id: ObjectId, token: RequestId)
    | ReleaseEverywhere(id: ObjectId)

  /** An inline put goes to the object table and, if the table takes it, to the arena as well. */
  function PutEvent(c: Cluster, h: Bytes -> Digest, codec: Codec, bytes: Bytes, now: int, token: RequestId,
                    order: seq<ObjectId>): Cluster
  {
    if |bytes| > MAX_OBJECT_BYTES then c
    else
      var put := PutInline(c.state, h, codec, bytes);
      if put.reply.Err? then Cluster(put.state, c.arena)
      else Cluster(put.state, A.Put(c.arena, put.reply.value, bytes, codec, h(bytes), now, token, order).0)
  }

  /** Content already stored resolves as a plain get. */
  function ReserveEvent(c: Cluster, id: ObjectId, codec: Codec, size: int, checksum: Digest, mode: A.WriteMode,
                        now: int, token: RequestId, order: seq<ObjectId>): Cluster
  {
    if Resolve(c.state, id).Ok? then c
    else Cluster(c.state, A.Reserve(c.arena, id, size, codec, checksum, mode, now, token, order).arena)
  }

  /** Commit in the arena, then register the metadata; if that is refused the commit is rolled back. */
  function CommitEvent(c: Cluster, id: ObjectId, token: RequestId): Cluster
  {
    var committed := A.Commit(c.arena, id, token);
    match committed.reply
    case Err(_) => Cluster(c.state, committed.arena)
    case Ok(meta) =>
      var put := Admit(c.state, id, meta.codec, meta.size, meta.checksum, None);
      if put.reply.Ok? && Resolve(put.state, id).Ok? then Cluster(put.state, committed.arena)
      else Cluster(put.state, A.Rollback(committed.arena, id, token).arena)
  }

  /** What a reader is sent: the payload and, for an object in the arena, where it starts there. */
  datatype Offer = Offer(payload: ObjectPayload, offset: Option<int>)

  /** An object committed in the arena is offered by its offset, without inline bytes. */
  function Annotated(a: A.Arena, p: ObjectPayload): Offer
  {
    if p.id in a.live && a.live[p.id].committed then Offer(p.(bytes := None), Some(a.live[p.id].offset))
    else Offer(p, None)
  }

  function GetReply(c: Cluster, id: ObjectId): Result<Offer>
  {
    match Resolve(c.state, id)
    case Ok(p) => Ok(Annotated(c.arena, p))
    case Err(e) => Err(e)
  }

  /** The put handler answers with metadata only. */
  function PutReply(c: Cluster, h: Bytes -> Digest, codec: Codec, bytes: Bytes): Result<ObjectPayload>
  {
    if |bytes| > MAX_OBJECT_BYTES then Err(Protocol("object too large")) else
      match PutInline(c.state, h, codec, bytes).reply
      case Ok(id) => Ok(ObjectPayload(id, codec, |bytes|, h(bytes), COORDINATOR, None))
      case Err(e) => Err(e)
  }

  /** The reservation handler offers stored content, or grants a slot. */
  datatype ReserveAnswer = StoredAlready(offer: Offer) | Granted(id: ObjectId, offset: int, token: RequestId)

  function ReserveReply(c: Cluster, id: ObjectId, codec: Codec, size: int, checksum: Digest, mode: A.WriteMode,
                        now: int, token: RequestId, order: seq<ObjectId>): Result<ReserveAnswer>
  {
    match Resolve(c.state, id)
    case Ok(p) => Ok(StoredAlready(Annotated(c.arena, p)))
    case Err(_) =>
      match A.Reserve(c.arena, id, size, codec, checksum, mode, now, token, order).reply
      case Ok(v) => Ok(Granted(id, v.offset, v.reservation))
      case Err(e) => Err(e)
  }

  /** What the commit handler answers: the registered object as a reader would get it, or the first refusal. */
  function CommitReply(c: Cluster, id: ObjectId, token: RequestId): Result<Offer>
  {
    var committed := A.Commit(c.arena, id, token);
    match committed.reply
    case Err(e) => Err(e)
    case Ok(meta) =>
      var put := Admit(c.state, id, meta.codec, meta.size, meta.checksum, None);
      if put.reply.Err? then Err(put.reply.error)
      else match Resolve(put.state, id)
        case Ok(p) => Ok(Annotated(committed.arena, p))
        case Err(e) => Err(e)
  }

  function ReleaseEvent(c: Cluster, id: ObjectId): Cluster
  {
    var released := ReleaseObject(c.state, id);
    Cluster(released.state, if released.reply.Ok? then A.Release(c.arena, id) else c.arena)
  }

  ghost predicate LegalEvent(c: Cluster, h: Bytes -> Digest, e: Event)
  {
    match e
    case Coordinate(a) => StateOnly(a) && Legal(c.state, h, a)
    case PutInlineObject(_, _, now, token, order) =>
      token !in c.arena.issued && IsOrder(order, A.ExpiredIds(c.arena, now))
    case ReserveArena(_, _, size, _, _, now, token, order) =>
      0 <= size <= U64_MAX - 7 && token !in c.arena.issued && IsOrder(order, A.ExpiredIds(c.arena, now))
    case WriteArena(_, _, rel, _, _) => 0 <= rel
    case WriteMapping(id, rel, chunk) => ArenaRuns.DirectOk(c.arena, id, rel, chunk)
    case _ => true
  }

  ghost function Handle(c: Cluster, h: Bytes -> Digest, e: Event): Cluster
  {
    match e
    case Coordinate(a) => Cluster(Next(c.state, h, a), c.arena)
    case PutInlineObject(codec, bytes, now, token, order) => PutEvent(c, h, codec, bytes, now, token, order)
    case ReserveArena(id, codec, size, checksum, mode, now, token, order) =>
      ReserveEvent(c, id, codec, size, checksum, mode, now, token, order)
    case WriteArena(id, token, rel, chunk, now) =>
      Cluster(c.state, A.WriteChunk(c.arena, id, token, rel, chunk, now).arena)
    case WriteMapping(id, rel, chunk) => Cluster(c.state, A.DirectWrite(c.arena, id, rel, chunk))
    case CommitArena(id, token) => CommitEvent(c, id, token)
    case ReleaseEverywhere(id) => ReleaseEvent(c, id)
  }

  ghost predicate ClusterInv(c: Cluster)
  {
    Inv(c.state) && ArenaInv(c.arena) && Agree(c.state, c.arena)
  }

  // ---------------------------------------------------------------- each handler keeps the agreement

  /** What is committed stays committed, under the same token and with the same metadata. */
  ghost predicate CommitsStay(a: A.Arena, b: A.Arena)
  {
    forall id :: id in a.live && a.live[id].committed ==>
      id in b.live && b.live[id].committed && b.live[id].reservation == a.live[id].reservation
      && b.live[id].codec == a.live[id].codec
      && b.live[id].size == a.live[id].size && b.live[id].checksum == a.live[id].checksum
  }

  lemma AgreeStays(s: State, s': State, a: A.Arena, b: A.Arena)
    requires Agree(s, a) && BackedShrinks(s, s') && CommitsStay(a, b)
    ensures Agree(s', b)
  {
    forall id | ArenaBacked(s', id) ensures Stored(b, id, s'.objects[id]) {
      assert ArenaBacked(s, id);
      assert Stored(a, id, s.objects[id]);
    }
  }

  lemma ReapStays(a: A.Arena, now: int, order: seq<ObjectId>)
    requires ArenaInv(a) && IsOrder(order, A.ExpiredIds(a, now))
    ensures CommitsStay(a, A.ReleaseAll(a, order))
  {
    hide ArenaInv;
    ArenaSteps.ReleaseAllRest(a, order);
    forall i | i in a.live && a.live[i].committed ensures i in A.ReleaseAll(a, order).live {
      ArenaRuns.ReapSpares(a, now, order, i);
    }
  }

  lemma ReserveInStays(a: A.Arena, id: ObjectId, size: int, codec: Codec, checksum: Digest, mode: A.WriteMode, now: int,
                       token: RequestId)
    ensures CommitsStay(a, A.ReserveIn(a, id, size, codec, checksum, mode, now, token).arena)
  {
    hide A.SlotFor;
  }

  lemma ReserveStays(a: A.Arena, id: ObjectId, size: int, codec: Codec, checksum: Digest, mode: A.WriteMode, now: int,
                     token: RequestId, order: seq<ObjectId>, b: A.Arena)
    requires ArenaInv(a) && IsOrder(order, A.ExpiredIds(a, now))
    requires b == A.Reserve(a, id, size, codec, checksum, mode, now, token, order).arena
    ensures CommitsStay(a, b)
  {
    hide ArenaInv, CommitsStay, A.ReleaseAll, A.ReserveIn;
    ReapStays(a, now, order);
    ReserveInStays(A.ReleaseAll(a, order), id, size, codec, checksum, mode, now, token);
    CommitsStayOn(a, A.ReleaseAll(a, order), b);
  }

  lemma FillStays(a: A.Arena, id: ObjectId, offset: int, bytes: Bytes, token: RequestId)
    ensures CommitsStay(a, A.Commit(A.WriteAt(a, offset, bytes), id, token).arena)
  {
    CommitStays(A.WriteAt(a, offset, bytes), id, token);
  }

  lemma CommitsStayOn(a: A.Arena, b: A.Arena, c: A.Arena)
    requires CommitsStay(a, b) && CommitsStay(b, c)
    ensures CommitsStay(a, c)
  {
  }

  lemma PutStays(a: A.Arena, id: ObjectId, bytes: Bytes, codec: Codec, checksum: Digest, now: int, token: RequestId,
                 order: seq<ObjectId>, b: A.Arena)
    requires ArenaInv(a) && IsOrder(order, A.ExpiredIds(a, now))
    requires b == A.Put(a, id, bytes, codec, checksum, now, token, order).0
    ensures CommitsStay(a, b)
  {
    hide ArenaInv, CommitsStay, A.Reserve, A.Commit, A.WriteAt;
    var r := A.Reserve(a, id, |bytes|, codec, checksum, A.Direct, now, token, order);
    ReserveStays(a, id, |bytes|, codec, checksum, A.Direct, now, token, order, r.arena);
    if r.reply.Ok? && !r.reply.value.committed {
      FillStays(r.arena, id, r.reply.value.offset, bytes, r.reply.value.reservation);
      CommitsStayOn(a, r.arena, b);
    }
  }

  lemma PutAgrees(c: Cluster, h: Bytes -> Digest, codec: Codec, bytes: Bytes, now: int, token: RequestId,
                  order: seq<ObjectId>, c': Cluster)
    requires token !in c.arena.issued && IsOrder(order, A.ExpiredIds(c.arena, now))
    requires c' == PutEvent(c, h, codec, bytes, now, token, order)
    ensures ArenaInv(c.arena) && Agree(c.state, c.arena) ==> ArenaInv(c'.arena) && Agree(c'.state, c'.arena)
  {
    hide ArenaInv;
    var put := PutInline(c.state, h, codec, bytes);
    if ArenaInv(c.arena) && Agree(c.state, c.arena) && |bytes| <= MAX_OBJECT_BYTES && put.reply.Ok? {
      PutStays(c.arena, put.reply.value, bytes, codec, h(bytes), now, token, order, c'.arena);
      ArenaSteps.PutKeeps(c.arena, put.reply.value, bytes, codec, h(bytes), now, token, order, c'.arena);
      AgreeStays(c.state, c'.state, c.arena, c'.arena);
    }
  }

  lemma ReserveAgrees(c: Cluster, id: ObjectId, codec: Codec, size: int, checksum: Digest, mode: A.WriteMode, now: int,
                      token: RequestId, order: seq<ObjectId>, c': Cluster)
    requires IsOrder(order, A.ExpiredIds(c.arena, now))
    requires c' == ReserveEvent(c, id, codec, size, checksum, mode, now, token, order)
    ensures ArenaInv(c.arena) && Agree(c.state, c.arena) ==> Agree(c'.state, c'.arena)
  {
    hide ArenaInv;
    if ArenaInv(c.arena) && Agree(c.state, c.arena) && Resolve(c.state, id).Err? {
      ReserveStays(c.arena, id, size, codec, checksum, mode, now, token, order, c'.arena);
      AgreeStays(c.state, c'.state, c.arena, c'.arena);
    }
  }

  lemma CommitStays(a: A.Arena, id: ObjectId, token: RequestId)
    ensures CommitsStay(a, A.Commit(a, id, token).arena)
  {
  }

  /** Registering the metadata of a committed object. */
  lemma AdmitAgrees(s: State, id: ObjectId, a: A.Arena, s': State)
    requires Agree(s, a) && id in a.live && a.live[id].committed
    requires s' == Admit(s, id, a.live[id].codec, a.live[id].size, a.live[id].checksum, None).state
    ensures Agree(s', a)
  {
    forall i | ArenaBacked(s', i) ensures Stored(a, i, s'.objects[i]) {
      if i in s.objects {
        assert s'.objects[i] == s.objects[i];
        assert ArenaBacked(s, i) && Stored(a, i, s.objects[i]);
      } else {
        assert i == id;
      }
    }
  }

  /** A refused registration strands no record: one backed by the arena would have matched. */
  lemma RefusedUnbacked(s: State, id: ObjectId, a: A.Arena, put: Outcome<ObjectId>)
    requires Agree(s, a) && ObjectsMatch(s) && id in a.live
    requires put == Admit(s, id, a.live[id].codec, a.live[id].size, a.live[id].checksum, None)
    requires put.reply.Err? || Resolve(put.state, id).Err?
    ensures put.state == s && !ArenaBacked(s, id)
  {
  }

  lemma RollbackAgrees(s: State, a: A.Arena, id: ObjectId, token: RequestId)
    requires Agree(s, a) && !ArenaBacked(s, id)
    ensures Agree(s, A.Rollback(a, id, token).arena)
  {
  }

  lemma CommitAgrees(c: Cluster, id: ObjectId, token: RequestId, c': Cluster)
    requires c' == CommitEvent(c, id, token)
    ensures Inv(c.state) && ArenaInv(c.arena) && Agree(c.state, c.arena) ==>
      ArenaInv(c'.arena) && Agree(c'.state, c'.arena)
  {
    if Inv(c.state) && ArenaInv(c.arena) && Agree(c.state, c.arena) {
      var committed := A.Commit(c.arena, id, token);
      ArenaSteps.CommitKeeps(c.arena, id, token, committed.arena);
      CommitStays(c.arena, id, token);
      AgreeStays(c.state, c.state, c.arena, committed.arena);
      if committed.reply.Ok? {
        var meta := committed.reply.value;
        var put := Admit(c.state, id, meta.codec, meta.size, meta.checksum, None);
        ArenaSteps.ReleaseKeeps(committed.arena, id);
        if put.reply.Ok? && Resolve(put.state, id).Ok? {
          AdmitAgrees(c.state, id, committed.arena, put.state);
        } else {
          RefusedUnbacked(c.state, id, committed.arena, put);
          RollbackAgrees(c.state, committed.arena, id, token);
        }
      }
    }
  }

  lemma ReleaseAgrees(c: Cluster, id: ObjectId, c': Cluster)
    requires ArenaInv(c.arena) && Agree(c.state, c.arena) && c' == ReleaseEvent(c, id)
    ensures ArenaInv(c'.arena) && Agree(c'.state, c'.arena)
  {
    hide ArenaInv;
    ArenaSteps.ReleaseKeeps(c.arena, id);
    forall i | ArenaBacked(c'.state, i) ensures Stored(c'.arena, i, c'.state.objects[i]) {
      assert ArenaBacked(c.state, i);
      assert Stored(c.arena, i, c.state.objects[i]);
    }
  }

  lemma ChunkAgrees(s: State, a: A.Arena, id: ObjectId, token: RequestId, rel: int, chunk: Bytes, now: int, b: A.Arena)
    requires ArenaInv(a) && Agree(s, a) && 0 <= rel && b == A.WriteChunk(a, id, token, rel, chunk, now).arena
    ensures ArenaInv(b) && Agree(s, b)
  {
    hide ArenaInv;
    ArenaSteps.WriteChunkKeeps(a, id, token, rel, chunk, now, b);
    assert CommitsStay(a, b);
    AgreeStays(s, s, a, b);
  }

  lemma DirectAgrees(s: State, a: A.Arena, id: ObjectId, rel: int, chunk: Bytes, b: A.Arena)
    requires ArenaInv(a) && Agree(s, a) && id in a.live && b == A.DirectWrite(a, id, rel, chunk)
    ensures ArenaInv(b) && Agree(s, b)
  {
    ArenaSteps.WriteAtKeeps(a, a.live[id].offset + rel, chunk);
    AgreeStays(s, s, a, b);
  }

  /** Every handler keeps both invariants and the agreement between them. */
  lemma HandleKeeps(c: Cluster, h: Bytes -> Digest, e: Event, c': Cluster)
    requires ClusterInv(c) && LegalEvent(c, h, e) && c' == Handle(c, h, e)
    ensures ClusterInv(c')
  {
    hide Inv, ArenaInv, Agree;
    match e
    case Coordinate(a) =>
      NextKeepsInv(c.state, h, a, c'.state);
      NextShrinks(c.state, h, a, c'.state);
      AgreeStays(c.state, c'.state, c.arena, c'.arena);
    case PutInlineObject(codec, bytes, now, token, order) =>
      Admission.AdmitKeeps(c.state, h(bytes), codec, |bytes|, h(bytes), Some(bytes),
                           PutInline(c.state, h, codec, bytes).state);
      PutAgrees(c, h, codec, bytes, now, token, order, c');
    case ReserveArena(id, codec, size, checksum, mode, now, token, order) =>
      ReserveAgrees(c, id, codec, size, checksum, mode, now, token, order, c');
      if Resolve(c.state, id).Err? {
        ArenaSteps.ReserveKeeps(c.arena, id, size, codec, checksum, mode, now, token, order, c'.arena);
      }
    case WriteArena(id, token, rel, chunk, now) => ChunkAgrees(c.state, c.arena, id, token, rel, chunk, now, c'.arena);
    case WriteMapping(id, rel, chunk) => DirectAgrees(c.state, c.arena, id, rel, chunk, c'.arena);
    case CommitArena(id, token) =>
      var committed := A.Commit(c.arena, id, token);
      if committed.reply.Ok? {
        var meta := committed.reply.value;
        Admission.AdmitKeeps(c.state, id, meta.codec, meta.size, meta.checksum, None, c'.state);
      }
      CommitAgrees(c, id, token, c');
    case ReleaseEverywhere(id) =>
      Reclaim.ReleaseObjectKeeps(c.state, id, c'.state);
      ReleaseAgrees(c, id, c');
  }

  // ---------------------------------------------------------------- runs

  ghost predicate StepAt(h: Bytes -> Digest, clusters: seq<Cluster>, events: seq<Event>, k: nat)
    requires k + 1 < |clusters| && k < |events|
  {
    LegalEvent(clusters[k], h, events[k]) && clusters[k + 1] == Handle(clusters[k], h, events[k])
  }

  ghost predicate IsRun(h: Bytes -> Digest, clusters: seq<Cluster>, events: seq<Event>)
  {
    && |clusters| == |events| + 1
    && clusters[0].state == Init(clusters[0].state.epoch)
    && |clusters[0].arena.mem| == A.ARENA_BYTES && clusters[0].arena == A.Fresh(clusters[0].arena.mem)
    && forall k :: 0 <= k < |events| ==> StepAt(h, clusters, events, k)
  }

  /** In every state of every run each arena-backed record has its committed bytes in the arena. */
  lemma {:induction false} RunAgrees(h: Bytes -> Digest, clusters: seq<Cluster>, events: seq<Event>, k: nat)
    requires IsRun(h, clusters, events) && k < |clusters|
    ensures ClusterInv(clusters[k])
    decreases k
  {
    if k == 0 {
      InitInv(clusters[0].state.epoch);
      ArenaRuns.FreshInv(clusters[0].arena.mem);
    } else {
      RunAgrees(h, clusters, events, k - 1);
      assert StepAt(h, clusters, events, k - 1);
      HandleKeeps(clusters[k - 1], h, events[k - 1], clusters[k]);
    }
  }

  /** So whatever the coordinator offers without bytes or owner can be read from the arena, in full. */
  lemma OfferedIsReadable(h: Bytes -> Digest, clusters: seq<Cluster>, events: seq<Event>, k: nat, id: ObjectId)
    requires IsRun(h, clusters, events) && k < |clusters|
    requires ArenaBacked(clusters[k].state, id)
    ensures var c := clusters[k];
      && Resolve(c.state, id).Ok?
      && A.Read(c.arena, id).Some?
      && |A.Read(c.arena, id).value| == Resolve(c.state, id).value.size
  {
    RunAgrees(h, clusters, events, k);
    var c := clusters[k];
    assert Stored(c.arena, id, c.state.objects[id]);
    assert Complete?(c.state.objects[id]);
    ObjectInSlot(c.arena, id);
  }

  // ---------------------------------------------------------------- bytes over runs

  lemma CommitEventEvolves(c: Cluster, id: ObjectId, token: RequestId, c': Cluster)
    requires ArenaInv(c.arena) && c' == CommitEvent(c, id, token)
    ensures ArenaRuns.Evolves(c.arena, c'.arena)
  {
    hide ArenaRuns.Evolves, Resolve, Admit;
    var committed := A.Commit(c.arena, id, token).arena;
    ArenaRuns.CommitEvolves(c.arena, id, token, committed);
    ArenaRuns.ReleaseEvolves(committed, id);
    ArenaRuns.EvolvesThrough(c.arena, committed, A.Release(committed, id));
  }

  /** Whatever a handler does in the arena, committed bytes under a token stay what they are. */
  lemma HandleEvolves(c: Cluster, h: Bytes -> Digest, e: Event, c': Cluster)
    requires ArenaInv(c.arena) && LegalEvent(c, h, e) && c' == Handle(c, h, e)
    ensures ArenaRuns.Evolves(c.arena, c'.arena)
  {
    hide ArenaInv, Legal, Next, ArenaRuns.Evolves;
    ArenaRuns.SameEvolves(c.arena);
    match e
    case Coordinate(_) =>
    case PutInlineObject(codec, bytes, now, token, order) =>
      var put := PutInline(c.state, h, codec, bytes);
      if |bytes| <= MAX_OBJECT_BYTES && put.reply.Ok? {
        ArenaRuns.PutEvolves(c.arena, put.reply.value, bytes, codec, h(bytes), now, token, order, c'.arena);
      }
    case ReserveArena(id, codec, size, checksum, mode, now, token, order) =>
      if Resolve(c.state, id).Err? {
        ArenaRuns.ReserveEvolves(c.arena, id, size, codec, checksum, mode, now, token, order, c'.arena);
      }
    case WriteArena(id, token, rel, chunk, now) =>
      ArenaRuns.ChunkEvolves(c.arena, id, token, rel, chunk, now, c'.arena);
    case WriteMapping(id, rel, chunk) => ArenaRuns.WriteEvolves(c.arena, id, rel, chunk, c'.arena);
    case CommitArena(id, token) => CommitEventEvolves(c, id, token, c');
    case ReleaseEverywhere(id) => ArenaRuns.ReleaseEvolves(c.arena, id);
  }

  lemma CommitKeepsToken(c: Cluster, id: ObjectId, token: RequestId, c': Cluster, other: ObjectId)
    requires ObjectsMatch(c.state) && Agree(c.state, c.arena) && c' == CommitEvent(c, id, token)
    requires ArenaBacked(c.state, other) && ArenaBacked(c'.state, other)
    ensures other in c.arena.live && ArenaRuns.Current(c'.arena, other, c.arena.live[other].reservation)
  {
    assert Stored(c.arena, other, c.state.objects[other]);
    var committed := A.Commit(c.arena, id, token);
    CommitStays(c.arena, id, token);
    AgreeStays(c.state, c.state, c.arena, committed.arena);
    if committed.reply.Ok? {
      var meta := committed.reply.value;
      var put := Admit(c.state, id, meta.codec, meta.size, meta.checksum, None);
      if put.reply.Err? || Resolve(put.state, id).Err? {
        RefusedUnbacked(c.state, id, committed.arena, put);
      }
    }
  }

  lemma ReleaseKeepsToken(c: Cluster, id: ObjectId, c': Cluster, other: ObjectId)
    requires Agree(c.state, c.arena) && c' == ReleaseEvent(c, id)
    requires ArenaBacked(c.state, other) && ArenaBacked(c'.state, other)
    ensures other in c.arena.live && ArenaRuns.Current(c'.arena, other, c.arena.live[other].reservation)
  {
    assert Stored(c.arena, other, c.state.objects[other]);
  }

  lemma StaysKeepsToken(s: State, a: A.Arena, b: A.Arena, other: ObjectId)
    requires Agree(s, a) && CommitsStay(a, b) && ArenaBacked(s, other)
    ensures other in a.live && a.live[other].committed && ArenaRuns.Current(b, other, a.live[other].reservation)
  {
    assert Stored(a, other, s.objects[other]);
  }

  /** A record that stays arena-backed keeps its arena entry. */
  lemma HandleKeepsToken(c: Cluster, h: Bytes -> Digest, e: Event, c': Cluster, other: ObjectId)
    requires ClusterInv(c) && LegalEvent(c, h, e) && c' == Handle(c, h, e)
    requires ArenaBacked(c.state, other) && ArenaBacked(c'.state, other)
    ensures other in c.arena.live && c.arena.live[other].committed
    ensures ArenaRuns.Current(c'.arena, other, c.arena.live[other].reservation)
  {
    hide ArenaInv, Legal, Next, Consistent, Agree, ArenaBacked;
    StaysKeepsToken(c.state, c.arena, c.arena, other);
    match e
    case Coordinate(_) =>
    case PutInlineObject(codec, bytes, now, token, order) =>
      var put := PutInline(c.state, h, codec, bytes);
      if |bytes| <= MAX_OBJECT_BYTES && put.reply.Ok? {
        PutStays(c.arena, put.reply.value, bytes, codec, h(bytes), now, token, order, c'.arena);
        StaysKeepsToken(c.state, c.arena, c'.arena, other);
      }
    case ReserveArena(id, codec, size, checksum, mode, now, token, order) =>
      if Resolve(c.state, id).Err? {
        ReserveStays(c.arena, id, size, codec, checksum, mode, now, token, order, c'.arena);
        StaysKeepsToken(c.state, c.arena, c'.arena, other);
      }
    case WriteArena(id, token, rel, chunk, now) =>
      ChunkStays(c.arena, id, token, rel, chunk, now);
      StaysKeepsToken(c.state, c.arena, c'.arena, other);
    case WriteMapping(id, rel, chunk) =>
    case CommitArena(id, token) =>
      ConsistentObjects(c.state);
      CommitKeepsToken(c, id, token, c', other);
    case ReleaseEverywhere(id) => ReleaseKeepsToken(c, id, c', other);
  }

  lemma ConsistentObjects(s: State)
    requires Consistent(s)
    ensures ObjectsMatch(s)
  {
  }

  lemma ChunkStays(a: A.Arena, id: ObjectId, token: RequestId, rel: int, chunk: Bytes, now: int)
    ensures CommitsStay(a, A.WriteChunk(a, id, token, rel, chunk, now).arena)
  {
  }

  lemma StepKeepsBytes(c: Cluster, h: Bytes -> Digest, e: Event, c': Cluster, id: ObjectId)
    requires ClusterInv(c) && LegalEvent(c, h, e) && c' == Handle(c, h, e)
    requires ArenaBacked(c.state, id) && ArenaBacked(c'.state, id)
    ensures A.Read(c.arena, id).Some? && A.Read(c'.arena, id) == A.Read(c.arena, id)
  {
    hide Inv, ArenaInv, Agree, LegalEvent, Handle, ArenaBacked;
    HandleEvolves(c, h, e, c');
    HandleKeepsToken(c, h, e, c', id);
  }

  /** While a record stays arena-backed, reading it from the arena gives the same bytes, whatever else is put,
      written, committed, released, expired or reaped. */
  lemma {:induction false} BackedBytesStay(h: Bytes -> Digest, clusters: seq<Cluster>, events: seq<Event>, i: nat,
                                           j: nat, id: ObjectId)
    requires IsRun(h, clusters, events) && i <= j < |clusters|
    requires forall k :: i <= k <= j ==> ArenaBacked(clusters[k].state, id)
    ensures A.Read(clusters[i].arena, id).Some? && A.Read(clusters[j].arena, id) == A.Read(clusters[i].arena, id)
    decreases j
  {
    hide Inv, ArenaInv, Agree, LegalEvent, Handle, ArenaBacked, Resolve;
    if i == j {
      OfferedIsReadable(h, clusters, events, i, id);
    } else {
      BackedBytesStay(h, clusters, events, i, j - 1, id);
      RunAgrees(h, clusters, events, j - 1);
      assert StepAt(h, clusters, events, j - 1);
      StepKeepsBytes(clusters[j - 1], h, events[j - 1], clusters[j], id);
    }
  }
}
