/** The client's chunked transfers: what is streamed in is what comes back, whatever is delivered twice. */
module Transfers {
  import opened Types
  import opened ArenaModel
  import opened Allocation
  import opened ArenaRuns
  import ArenaSteps
  import M = Model
  import opened Invariants
  import opened Agreement
  import opened Serving

  /** Where the `i`-th chunk of a payload starts and ends. */
  function ChunkStart(i: nat): nat
  {
    i * MAX_OBJECT_BYTES
  }

  function ChunkEnd(data: Bytes, i: nat): nat
  {
    Min(ChunkStart(i + 1), |data|)
  }

  /** `data` is being streamed to `id` and its first `upto` bytes have arrived. */
  ghost predicate Sending(a: Arena, id: ObjectId, token: RequestId, codec: Codec, data: Bytes, upto: nat)
  {
    && Current(a, id, token) && upto <= |data|
    && var e := a.live[id];
       && e.mode.Streamed? && !e.committed && e.size == |data| && e.writtenUntil == upto
       && e.codec == codec && e.checksum == UNHASHED
       && Slice(a.mem, e.offset, upto) == data[..upto]
  }

  lemma NextChunkLands(a: Arena, id: ObjectId, token: RequestId, codec: Codec, data: Bytes, from: nat, to: nat,
                       now: int, b: Arena)
    requires ArenaInv(a) && Sending(a, id, token, codec, data, from) && from <= to <= |data|
    requires b == WriteChunk(a, id, token, from, data[from..to], now).arena
    ensures WriteChunk(a, id, token, from, data[from..to], now).reply.Ok? && Sending(b, id, token, codec, data, to)
  {
    ObjectInSlot(a, id);
    SpliceReads(a.mem, a.live[id].offset, a.live[id].offset + from, data[from..to]);
    assert data[..from] + data[from..to] == data[..to];
  }

  lemma RepeatedChunkIgnored(a: Arena, id: ObjectId, token: RequestId, codec: Codec, data: Bytes, upto: nat,
                             from: nat, to: nat, now: int)
    requires ArenaInv(a) && Sending(a, id, token, codec, data, upto) && from < to <= upto
    ensures WriteChunk(a, id, token, from, data[from..to], now) == Outcome(a, Ok(()))
  {
    ObjectInSlot(a, id);
    var e := a.live[id];
    SliceOfSlice(a.mem, e.offset, upto, from, to);
    SliceOfSlice(data, 0, upto, from, to);
  }

  /** Delivers chunk `i`, for the first time or again. */
  method SendChunk(server: Server, id: ObjectId, token: RequestId, codec: Codec, data: Bytes, i: nat, now: int,
                   ghost upto: nat)
    returns (reply: Result<()>)
    requires server.Valid() && Sending(server.arena.View(), id, token, codec, data, upto)
    requires ChunkStart(i) < |data| && (upto == ChunkStart(i) || ChunkEnd(data, i) <= upto)
    modifies server.arena, server.arena.mapping
    ensures server.Valid() && reply == Ok(())
    ensures Sending(server.arena.View(), id, token, codec, data,
                    if upto == ChunkStart(i) then ChunkEnd(data, i) else upto)
  {
    hide Inv, ArenaInv, Sending;
    ghost var a := server.arena.View();
    var from, to := ChunkStart(i), ChunkEnd(data, i);
    reply := server.PutChunk(id, token, from, data[from..to], now);
    if upto == from {
      NextChunkLands(a, id, token, codec, data, from, to, now, server.arena.View());
    } else {
      RepeatedChunkIgnored(a, id, token, codec, data, upto, from, to, now);
    }
  }

  /** Chunks up to number `i` arriving once more. */
  method Redeliver(server: Server, id: ObjectId, token: RequestId, codec: Codec, data: Bytes, i: nat, now: int,
                   repeats: seq<nat>)
    requires server.Valid() && ChunkStart(i) < |data|
    requires Sending(server.arena.View(), id, token, codec, data, ChunkEnd(data, i))
    modifies server.arena, server.arena.mapping
    ensures server.Valid() && Sending(server.arena.View(), id, token, codec, data, ChunkEnd(data, i))
  {
    hide Inv, ArenaInv, Agree, Sending;
    for k := 0 to |repeats|
      invariant server.Valid() && Sending(server.arena.View(), id, token, codec, data, ChunkEnd(data, i))
    {
      if repeats[k] <= i {
        var echo := SendChunk(server, id, token, codec, data, repeats[k], now, ChunkEnd(data, i));
      }
    }
  }

  /** Streams all chunks in order; after chunk `i`, the chunks numbered in `again(i)` arrive once more. */
  method SendAll(server: Server, id: ObjectId, token: RequestId, codec: Codec, data: Bytes, now: int,
                 again: nat -> seq<nat>)
    requires server.Valid() && Sending(server.arena.View(), id, token, codec, data, 0)
    modifies server.arena, server.arena.mapping
    ensures server.Valid() && Sending(server.arena.View(), id, token, codec, data, |data|)
  {
    hide Inv, ArenaInv, Agree, Sending;
    var i: nat := 0;
    while ChunkStart(i) < |data|
      invariant server.Valid() && Sending(server.arena.View(), id, token, codec, data, Min(ChunkStart(i), |data|))
      decreases |data| - ChunkStart(i)
    {
      var reply := SendChunk(server, id, token, codec, data, i, now, ChunkStart(i));
      Redeliver(server, id, token, codec, data, i, now, again(i));
      i := i + 1;
    }
  }

  lemma FreshlyReserved(a: Arena, id: ObjectId, codec: Codec, data: Bytes, now: int, token: RequestId,
                        order: seq<ObjectId>, b: Arena, reply: Result<Reservation>)
    requires id !in a.live
    requires Outcome(b, reply) == Reserve(a, id, |data|, codec, UNHASHED, Streamed, now, token, order)
    ensures reply.Err? <==> Allocate(ReleaseAll(a, order), SlotFor(|data|)).None?
    ensures reply.Err? ==> reply.error == CapacityExceeded("arena exhausted")
    ensures reply.Ok? ==> reply.value.reservation == token && Sending(b, id, token, codec, data, 0)
  {
    ArenaSteps.ReleaseAllRest(a, order);
  }

  /** The record of an object streamed in by a client. */
  function StreamedPayload(id: ObjectId, codec: Codec, data: Bytes): M.ObjectPayload
  {
    M.ObjectPayload(id, codec, |data|, UNHASHED, M.COORDINATOR, None)
  }

  lemma SentCommits(c: Cluster, id: ObjectId, token: RequestId, codec: Codec, data: Bytes, c': Cluster)
    requires Sending(c.arena, id, token, codec, data, |data|) && id !in c.state.objects
    requires c' == CommitEvent(c, id, token)
    ensures CommitReply(c, id, token) ==
      if |c.state.objects| < M.MAX_OBJECTS
      then Ok(Offer(StreamedPayload(id, codec, data), Some(c.arena.live[id].offset)))
      else Err(CapacityExceeded("object store limit reached"))
    ensures |c.state.objects| < M.MAX_OBJECTS ==>
      M.Resolve(c'.state, id) == Ok(StreamedPayload(id, codec, data)) && Read(c'.arena, id) == Some(data)
  {
    assert data[..|data|] == data;
  }

  /** Stores `data` as a new object. It fails exactly when the arena is exhausted or the object table is full. */
  method PutChunked(server: Server, id: ObjectId, codec: Codec, data: Bytes, now: int, token: RequestId,
                    again: nat -> seq<nat>) returns (r: Result<ObjectId>, ghost order: seq<ObjectId>)
    requires server.Valid() && |data| <= U64_MAX - 7 && token !in server.arena.issued
    requires id !in server.arena.live && id !in server.coordinator.objects
    modifies server.coordinator, server.arena, server.arena.mapping
    ensures server.Valid() && IsOrder(order, ExpiredIds(old(server.arena.View()), now))
    ensures r == if Allocate(ReleaseAll(old(server.arena.View()), order), SlotFor(|data|)).None?
                 then Err(CapacityExceeded("arena exhausted"))
                 else if |old(server.coordinator.objects)| >= M.MAX_OBJECTS
                 then Err(CapacityExceeded("object store limit reached")) else Ok(id)
    ensures r.Ok? ==> M.Resolve(server.coordinator.View(), id) == Ok(StreamedPayload(id, codec, data))
    ensures r.Ok? ==> Read(server.arena.View(), id) == Some(data)
  {
    hide Inv, ArenaInv, Agree, Sending, Allocate, ReleaseAll, SlotFor, Reserve, CommitEvent, CommitReply, M.Resolve;
    ghost var c := server.View();
    UnknownIsUnresolved(c.state, id);
    var reserved;
    reserved, order := server.ArenaReserve(id, codec, |data|, UNHASHED, Streamed, now, token);
    FreshlyReserved(c.arena, id, codec, data, now, token, order, server.arena.View(),
                    Reserve(c.arena, id, |data|, codec, UNHASHED, Streamed, now, token, order).reply);
    if reserved.Err? {
      return Err(reserved.error), order;
    }
    SendAll(server, id, reserved.value.token, codec, data, now, again);
    ghost var sent := server.View();
    var committed := server.ArenaCommit(id, reserved.value.token);
    SentCommits(sent, id, token, codec, data, server.View());
    return if committed.Ok? then Ok(id) else Err(committed.error), order;
  }

  lemma UnknownIsUnresolved(s: M.State, id: ObjectId)
    requires id !in s.objects
    ensures M.Resolve(s, id).Err?
  {
  }

  /** Pulls the first `size` bytes of an object, a frame-sized piece at a time. */
  method GetChunked(server: Server, id: ObjectId, size: nat) returns (r: Result<Bytes>)
    requires server.Valid() && size <= U64_MAX
    ensures r.Ok? <==>
      size == 0
      || (Read(server.arena.View(), id).Some? && size <= |Read(server.arena.View(), id).value|)
    ensures r.Ok? && size > 0 ==> r.value == Read(server.arena.View(), id).value[..size]
    ensures r.Ok? ==> |r.value| == size
    ensures r.Err? ==> r.error == Protocol(GET_CHUNK_REFUSED)
  {
    hide Inv, ArenaInv, Agree, ReadChunk, Read;
    ghost var a := server.arena.View();
    var out: Bytes := [];
    while |out| < size
      invariant |out| <= size
      invariant |out| > 0 ==> Read(a, id).Some? && |out| <= |Read(a, id).value| && out == Read(a, id).value[..|out|]
    {
      var len := Min(size - |out|, MAX_OBJECT_BYTES);
      var piece := server.GetChunk(id, |out|, len);
      PieceIs(a, id, |out|, len);
      if piece.Err? {
        return Err(piece.error);
      }
      out := out + piece.value;
    }
    r := Ok(out);
  }

  /** A chunk read is a piece of the whole, served exactly when it lies inside a committed object. */
  lemma PieceIs(a: Arena, id: ObjectId, rel: nat, len: nat)
    requires ArenaInv(a) && rel + len <= U64_MAX
    ensures ReadChunk(a, id, rel, len).Some? <==> Read(a, id).Some? && rel + len <= |Read(a, id).value|
    ensures ReadChunk(a, id, rel, len).Some? ==> ReadChunk(a, id, rel, len).value == Read(a, id).value[rel..rel + len]
  {
    if id in a.live {
      ObjectInSlot(a, id);
      SliceOfSlice(a.mem, a.live[id].offset, a.live[id].size, 0, a.live[id].size);
      if rel + len <= a.live[id].size {
        SliceOfSlice(a.mem, a.live[id].offset, a.live[id].size, rel, rel + len);
      }
    }
  }

  /** What the client checks of fetched bytes; `h` stands for BLAKE3, and a zero digest means unhashed. */
  predicate Verified(h: Bytes -> Digest, requested: ObjectId, returned: ObjectId, bytes: Bytes, expected: Digest,
                     size: int)
  {
    requested == returned && |bytes| == size && (expected == UNHASHED || h(bytes) == expected)
  }

  /** A payload streamed through the handlers comes back whole: the client's own check of it never fails. */
  method StoreAndFetch(h: Bytes -> Digest, server: Server, id: ObjectId, codec: Codec, data: Bytes, now: int,
                       token: RequestId, again: nat -> seq<nat>) returns (r: Result<Bytes>)
    requires server.Valid() && |data| <= U64_MAX - 7 && token !in server.arena.issued
    requires id !in server.arena.live && id !in server.coordinator.objects
    modifies server.coordinator, server.arena, server.arena.mapping
    ensures r.Ok? ==> r.value == data
    ensures r.Err? ==> r.error.CapacityExceeded?
  {
    hide Inv, ArenaInv, Agree, Allocate, ReleaseAll, SlotFor;
    var put, order := PutChunked(server, id, codec, data, now, token, again);
    if put.Err? {
      return Err(put.error);
    }
    var resolved := server.coordinator.ResolveObject(id);
    r := GetChunked(server, id, |data|);
    assert data[..|data|] == data;
    if !Verified(h, id, resolved.value.id, r.value, resolved.value.checksum, resolved.value.size) {
      r := Err(ObjectConflict(id));
    }
  }
}
