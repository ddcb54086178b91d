/** The request handlers that work on the coordinator and the arena together. */
module Serving {
  import opened Types
  import opened Model
  import opened Invariants
  import A = ArenaModel
  import opened Allocation
  import opened Coordination
  import opened ArenaStorage
  import opened Agreement
  import opened Oversize

  const GET_CHUNK_REFUSED: string := "get chunk out of bounds or object not committed"

  class Server {
    const coordinator: Coordinator
    const arena: ArenaStore

    ghost function View(): Cluster
      reads this, coordinator, arena, arena.mapping
    {
      Cluster(coordinator.View(), arena.View())
    }

    /** Both parts are sound on their own and agree with each other. */
    ghost predicate Valid()
      reads this, coordinator, arena, arena.mapping
    {
      coordinator.Valid() && arena.Valid() && Agree(coordinator.View(), arena.View())
    }

    constructor (epoch: Epoch, digest: Bytes -> Digest)
      ensures Valid() && fresh(coordinator) && fresh(arena) && fresh(arena.mapping)
      ensures coordinator.View() == Init(epoch) && arena.View() == A.Fresh(arena.mapping[..])
    {
      coordinator := new Coordinator(epoch, digest);
      arena := new ArenaStore();
    }

    /** Rewrites a payload to its arena form when the object is committed there. */
    method Annotate(p: ObjectPayload) returns (offer: Offer)
      ensures offer == Annotated(arena.View(), p)
    {
      if p.id in arena.live && arena.live[p.id].committed {
        return Offer(p.(bytes := None), Some(arena.live[p.id].offset));
      }
      return Offer(p, None);
    }

    method Get(id: ObjectId) returns (reply: Result<Offer>)
      requires Valid()
      ensures reply == GetReply(View(), id)
    {
      hide Inv, ArenaInv;
      var resolved := coordinator.ResolveObject(id);
      if resolved.Err? {
        return Err(resolved.error);
      }
      var offer := Annotate(resolved.value);
      return Ok(offer);
    }

    method StoreInline(codec: Codec, bytes: Bytes, now: int, token: RequestId)
      returns (reply: Result<ObjectId>, ghost order: seq<ObjectId>)
      requires coordinator.Valid() && arena.Valid() && token !in arena.issued && |bytes| <= MAX_OBJECT_BYTES
      modifies coordinator, arena, arena.mapping
      ensures coordinator.Valid() && arena.Valid() && IsOrder(order, A.ExpiredIds(old(arena.View()), now))
      ensures View() == PutEvent(old(View()), coordinator.digest, codec, bytes, now, token, order)
      ensures reply == PutInline(old(coordinator.View()), coordinator.digest, codec, bytes).reply
    {
      hide Inv, ArenaInv;
      hide A.Put, PutInline;
      reply := coordinator.Put(codec, bytes);
      if reply.Ok? {
        var offset;
        offset, order := arena.Put(reply.value, bytes, codec, coordinator.digest(bytes), now, token);
      } else {
        order := AnyOrder(A.ExpiredIds(arena.View(), now));
      }
    }

    /** An inline put is published in the arena too, so that a reader on the same host can map it. */
    method Put(codec: Codec, bytes: Bytes, now: int, token: RequestId)
      returns (reply: Result<ObjectPayload>, ghost order: seq<ObjectId>)
      requires Valid() && token !in arena.issued
      modifies coordinator, arena, arena.mapping
      ensures Valid() && IsOrder(order, A.ExpiredIds(old(arena.View()), now))
      ensures View() == PutEvent(old(View()), coordinator.digest, codec, bytes, now, token, order)
      ensures reply == PutReply(old(View()), coordinator.digest, codec, bytes)
    {
      hide Inv, ArenaInv;
      ghost var c := View();
      if |bytes| > MAX_OBJECT_BYTES {
        return Err(Protocol("object too large")), AnyOrder(A.ExpiredIds(arena.View(), now));
      }
      var stored;
      stored, order := StoreInline(codec, bytes, now, token);
      PutAgrees(c, coordinator.digest, codec, bytes, now, token, order, View());
      reply := if stored.Err? then Err(stored.error)
               else Ok(ObjectPayload(stored.value, codec, |bytes|, coordinator.digest(bytes), COORDINATOR, None));
    }

    method ArenaReserve(id: ObjectId, codec: Codec, size: int, checksum: Digest, mode: A.WriteMode, now: int,
                        token: RequestId) returns (reply: Result<ReserveAnswer>, ghost order: seq<ObjectId>)
      requires Valid() && 0 <= size <= U64_MAX && token !in arena.issued
      modifies arena
      ensures Valid() <==>
        size <= U64_MAX - 7 || Kept(old(arena.View()), id, now) || Resolve(old(coordinator.View()), id).Ok?
      ensures View() == ReserveEvent(old(View()), id, codec, size, checksum, mode, now, token, order)
      ensures Resolve(coordinator.View(), id).Err? ==> IsOrder(order, A.ExpiredIds(old(arena.View()), now))
      ensures reply == ReserveReply(old(View()), id, codec, size, checksum, mode, now, token, order)
    {
      hide Inv, ArenaInv;
      ghost var c := View();
      var resolved := coordinator.ResolveObject(id);
      if resolved.Ok? {
        var offer := Annotate(resolved.value);
        return Ok(StoredAlready(offer)), [];
      }
      var r;
      r, order := arena.Reserve(id, size, codec, checksum, mode, now, token);
      reply := if r.Ok? then Ok(Granted(id, r.value.offset, r.value.reservation)) else Err(r.error);
      ReserveAgrees(c, id, codec, size, checksum, mode, now, token, order, View());
    }

    method CommitAndRegister(id: ObjectId, token: RequestId) returns (reply: Result<Offer>)
      requires coordinator.Valid() && arena.Valid()
      modifies coordinator, arena
      ensures coordinator.Valid() && arena.Valid()
      ensures View() == CommitEvent(old(View()), id, token)
      ensures reply == CommitReply(old(View()), id, token)
    {
      hide Inv, ArenaInv;
      hide A.Rollback, Admit;
      var committed := arena.Commit(id, token);
      if committed.Err? {
        return Err(committed.error);
      }
      var meta := committed.value;
      var put := coordinator.AdmitObject(id, meta.codec, meta.size, meta.checksum, None);
      if put.Ok? {
        var resolved := coordinator.ResolveObject(id);
        if resolved.Ok? {
          var offer := Annotate(resolved.value);
          reply := Ok(offer);
        } else {
          reply := Err(resolved.error);
        }
      } else {
        reply := Err(put.error);
      }
      if reply.Err? {
        var undone := arena.Rollback(id, token);
      }
    }

    method ArenaCommit(id: ObjectId, token: RequestId) returns (reply: Result<Offer>)
      requires Valid()
      modifies coordinator, arena
      ensures Valid()
      ensures View() == CommitEvent(old(View()), id, token)
      ensures reply == CommitReply(old(View()), id, token)
    {
      hide Inv, ArenaInv;
      ghost var c := View();
      reply := CommitAndRegister(id, token);
      CommitAgrees(c, id, token, View());
    }

    method PutChunk(id: ObjectId, token: RequestId, rel: int, bytes: Bytes, now: int) returns (reply: Result<()>)
      requires Valid() && 0 <= rel
      modifies arena, arena.mapping
      ensures Valid()
      ensures coordinator.View() == old(coordinator.View())
      ensures A.Outcome(arena.View(), reply) == A.WriteChunk(old(arena.View()), id, token, rel, bytes, now)
    {
      hide Inv, ArenaInv;
      ghost var a := arena.View();
      reply := arena.WriteChunk(id, token, rel, bytes, now);
      ChunkAgrees(coordinator.View(), a, id, token, rel, bytes, now, arena.View());
    }

    method GetChunk(id: ObjectId, rel: int, len: int) returns (reply: Result<Bytes>)
      requires Valid() && 0 <= rel && 0 <= len
      ensures reply == if len > MAX_OBJECT_BYTES then Err(Protocol("get chunk too large"))
                       else match A.ReadChunk(arena.View(), id, rel, len)
                            case Some(bytes) => Ok(bytes)
                            case None => Err(Protocol(GET_CHUNK_REFUSED))
    {
      if len > MAX_OBJECT_BYTES {
        return Err(Protocol("get chunk too large"));
      }
      var bytes := arena.ReadChunk(id, rel, len);
      return if bytes.Some? then Ok(bytes.value) else Err(Protocol(GET_CHUNK_REFUSED));
    }

    method Release(id: ObjectId) returns (reply: Result<()>)
      requires Valid()
      modifies coordinator, arena
      ensures Valid()
      ensures View() == ReleaseEvent(old(View()), id)
      ensures reply == ReleaseObject(old(coordinator.View()), id).reply
    {
      hide Inv, ArenaInv;
      ghost var c := View();
      reply := coordinator.ReleaseObject(id);
      if reply.Ok? {
        arena.Release(id);
      }
      ReleaseAgrees(c, id, View());
    }
  }

  ghost function AnyOrder<T>(s: set<T>): (order: seq<T>)
    ensures IsOrder(order, s)
  {
    if s == {} then [] else
      var x :| x in s;
      var rest := AnyOrder(s - {x});
      NoDuplicatesConcat([x], rest);
      assert Elements([x] + rest) == {x} + Elements(rest);
      [x] + rest
  }
}
