/** The arena's two ways in, told from the bytes: an accepted chunk is stored and stays, and an inline put reads back
    as it was put. */
module Chunks {
  import opened Types
  import opened ArenaModel
  import opened Allocation
  import opened ArenaSteps
  import opened ArenaRuns

  // ---------------------------------------------------------------- one chunk

  /** The caller may write to the object: it is reserved for streaming under this token and not committed. */
  predicate MayWrite(a: Arena, id: ObjectId, token: RequestId)
  {
    id in a.live && a.live[id].reservation == token && !a.live[id].committed && a.live[id].mode == Streamed
  }

  /** What the arena holds for the object from `rel` on. */
  function Piece(a: Arena, id: ObjectId, rel: int, len: int): Bytes
    requires id in a.live
  {
    Slice(a.mem, a.live[id].offset + rel, len)
  }

  /** A chunk is accepted exactly when its sender may write, it lies inside the object, and it either continues what
      is written or repeats it. Then the object holds it, and one that continues keeps the reservation from going
      idle; a refused chunk changes nothing. */
  lemma ChunkEffect(a: Arena, id: ObjectId, token: RequestId, rel: int, bytes: Bytes, now: int)
    requires ArenaInv(a) && 0 <= rel
    ensures var out := WriteChunk(a, id, token, rel, bytes, now);
      && (out.reply.Ok? <==>
            && MayWrite(a, id, token) && rel + |bytes| <= a.live[id].size
            && (|| rel == a.live[id].writtenUntil
                || (rel + |bytes| <= a.live[id].writtenUntil && Piece(a, id, rel, |bytes|) == bytes)))
      && (out.reply.Ok? ==>
            && id in out.arena.live && Piece(out.arena, id, rel, |bytes|) == bytes
            && out.arena.live[id].writtenUntil == Max(a.live[id].writtenUntil, rel + |bytes|)
            && (rel == a.live[id].writtenUntil ==> out.arena.live[id].reservedAt == Some(now)))
      && (out.reply.Err? ==> out.arena == a)
      && (out.reply == Err(ObjectConflict(id)) <==>
            && MayWrite(a, id, token) && rel + |bytes| <= a.live[id].writtenUntil && rel != a.live[id].writtenUntil
            && Piece(a, id, rel, |bytes|) != bytes)
  {
    hide ArenaInv;
    if id in a.live {
      ObjectInSlot(a, id);
      EntryIsOk(a, id);
      if MayWrite(a, id, token) && rel == a.live[id].writtenUntil && rel + |bytes| <= a.live[id].size {
        SpliceReads(a.mem, a.live[id].offset + rel, a.live[id].offset + rel, bytes);
      }
    }
  }

  lemma EntryIsOk(a: Arena, id: ObjectId)
    requires ArenaInv(a) && id in a.live
    ensures a.live[id].size <= U64_MAX && 0 <= a.live[id].writtenUntil <= a.live[id].size
  {
    assert EntryOk(a.live[id], a.issued);
  }

  /** A commit is granted exactly under the current token and, for a streamed object, once every byte has arrived. It
      answers with what was reserved, and the object then reads as what is in its slot. */
  lemma CommitEffect(a: Arena, id: ObjectId, token: RequestId)
    ensures var out := Commit(a, id, token);
      && (out.reply.Ok? <==>
            && id in a.live && a.live[id].reservation == token
            && (a.live[id].mode == Direct || a.live[id].writtenUntil == a.live[id].size))
      && (out.reply.Err? ==> out.arena == a)
      && (out.reply.Ok? ==>
            var e := a.live[id];
            && out.reply.value == Meta(e.offset, e.size, e.codec, e.checksum)
            && Read(out.arena, id) == Some(Contents(a, id)) && out.arena.live[id].reservedAt == None
            && out.arena.live == a.live[id := out.arena.live[id]] && SameReservation(e, out.arena.live[id])
            && out.arena.mem == a.mem && out.arena.free == a.free && out.arena.top == a.top)
  {
  }

  // ---------------------------------------------------------------- chunks in runs

  /** While the token stays current for a streamed object, what was written stays, and more may follow. */
  ghost predicate PrefixStays(a: Arena, b: Arena, id: ObjectId, token: RequestId)
  {
    Current(a, id, token) && Current(b, id, token) && a.live[id].mode == Streamed ==>
      var e, f := a.live[id], b.live[id];
      && SameReservation(e, f) && e.writtenUntil <= f.writtenUntil
      && Slice(b.mem, e.offset, e.writtenUntil) == Slice(a.mem, e.offset, e.writtenUntil)
  }

  lemma SliceOf(mem: Bytes, offset: int, len: int, part: int)
    requires 0 <= offset && 0 <= part <= len && offset + len <= |mem|
    ensures Slice(mem, offset, part) == Slice(mem, offset, len)[..part]
  {
    SliceOfSlice(mem, offset, len, 0, part);
  }

  lemma PrefixThrough(a: Arena, b: Arena, c: Arena, id: ObjectId, token: RequestId)
    requires ArenaInv(a) && ArenaInv(b) && ArenaInv(c) && TokensStep(b, c) && token in b.issued
    requires PrefixStays(a, b, id, token) && PrefixStays(b, c, id, token)
    ensures PrefixStays(a, c, id, token)
  {
    hide ArenaInv;
    if Current(a, id, token) && Current(c, id, token) && a.live[id].mode == Streamed {
      var e, f := a.live[id], b.live[id];
      ObjectInSlot(b, id);
      ObjectInSlot(c, id);
      EntryIsOk(a, id);
      EntryIsOk(b, id);
      SliceOf(b.mem, e.offset, f.writtenUntil, e.writtenUntil);
      SliceOf(c.mem, e.offset, f.writtenUntil, e.writtenUntil);
    }
  }

  lemma OwnChunkKeeps(a: Arena, id: ObjectId, token: RequestId, rel: int, bytes: Bytes, now: int, b: Arena)
    requires ArenaInv(a) && 0 <= rel && b == WriteChunk(a, id, token, rel, bytes, now).arena
    ensures PrefixStays(a, b, id, token)
  {
    hide ArenaInv;
    if ChunkVerdict(a, id, token, rel, bytes) == Ok(true) {
      ObjectInSlot(a, id);
      EntryIsOk(a, id);
    }
  }

  lemma OtherWriteKeeps(a: Arena, other: ObjectId, rel: int, bytes: Bytes, b: Arena, id: ObjectId, token: RequestId)
    requires ArenaInv(a) && other in a.live && 0 <= rel && rel + |bytes| <= a.live[other].size
    requires id == other ==> !Current(a, id, token) || a.live[id].mode == Direct
    requires b.mem == WriteAt(a, a.live[other].offset + rel, bytes).mem
    requires other in b.live && SameReservation(a.live[other], b.live[other])
    requires b.live == a.live[other := b.live[other]]
    ensures PrefixStays(a, b, id, token)
  {
    hide ArenaInv;
    if Current(a, id, token) && id != other {
      WriteKeepsPrefix(a, other, rel, bytes, id);
    }
  }

  lemma ReserveKeepsPrefix(a: Arena, r: Call, b: Arena, id: ObjectId, token: RequestId)
    requires r.DoReserve? && r.token !in a.issued && b == Next(a, r) && token in a.issued
    ensures PrefixStays(a, b, id, token) && b.mem == a.mem
  {
    ReleaseAllRest(a, r.order);
  }

  lemma PutKeepsPrefix(a: Arena, p: Call, b: Arena, id: ObjectId, token: RequestId)
    requires ArenaInv(a) && p.DoPut? && Legal(a, p) && b == Next(a, p) && token in a.issued
    ensures PrefixStays(a, b, id, token)
  {
    hide ArenaInv;
    var c := DoReserve(p.id, |p.bytes|, p.codec, p.checksum, Direct, p.now, p.token, p.order);
    var r := Reserve(a, p.id, |p.bytes|, p.codec, p.checksum, Direct, p.now, p.token, p.order);
    ReserveKeepsPrefix(a, c, r.arena, id, token);
    ReserveKeeps(a, p.id, |p.bytes|, p.codec, p.checksum, Direct, p.now, p.token, p.order, r.arena);
    if r.reply.Ok? && !r.reply.value.committed {
      ReserveGives(a, p.id, |p.bytes|, p.codec, p.checksum, Direct, p.now, p.token, p.order, r);
      OtherWriteKeeps(r.arena, p.id, 0, p.bytes, b, id, token);
      FillEvolves(r.arena, p.id, p.bytes, r.reply.value.reservation, b);
      ReserveEvolves(a, p.id, |p.bytes|, p.codec, p.checksum, Direct, p.now, p.token, p.order, r.arena);
      PutKeeps(a, p.id, p.bytes, p.codec, p.checksum, p.now, p.token, p.order, b);
      PrefixThrough(a, r.arena, b, id, token);
    }
  }

  lemma UnwrittenKeeps(a: Arena, b: Arena, id: ObjectId, token: RequestId)
    requires b.mem == a.mem
    requires Current(a, id, token) && Current(b, id, token) ==>
      SameReservation(a.live[id], b.live[id]) && b.live[id].writtenUntil == a.live[id].writtenUntil
    ensures PrefixStays(a, b, id, token)
  {
  }

  lemma PrefixStep(a: Arena, c: Call, b: Arena, id: ObjectId, token: RequestId)
    requires ArenaInv(a) && Legal(a, c) && b == Next(a, c) && token in a.issued
    ensures PrefixStays(a, b, id, token)
  {
    hide ArenaInv, PrefixStays, Reserve, Put;
    match c
    case DoReserve(_, _, _, _, _, _, _, _) => ReserveKeepsPrefix(a, c, b, id, token);
    case DoPut(_, _, _, _, _, _, _) => PutKeepsPrefix(a, c, b, id, token);
    case DoChunk(other, t, rel, bytes, now) => ChunkKeepsPrefix(a, other, t, rel, bytes, now, b, id, token);
    case DoDirect(other, rel, bytes) => OtherWriteKeeps(a, other, rel, bytes, b, id, token);
    case DoCommit(_, _) => UnwrittenKeeps(a, b, id, token);
    case DoRollback(_, _) => UnwrittenKeeps(a, b, id, token);
    case DoRelease(_) => UnwrittenKeeps(a, b, id, token);
  }

  lemma ChunkKeepsPrefix(a: Arena, other: ObjectId, t: RequestId, rel: int, bytes: Bytes, now: int, b: Arena,
                         id: ObjectId, token: RequestId)
    requires ArenaInv(a) && 0 <= rel && b == WriteChunk(a, other, t, rel, bytes, now).arena
    ensures PrefixStays(a, b, id, token)
  {
    hide ArenaInv, PrefixStays;
    if other == id && t == token {
      OwnChunkKeeps(a, id, token, rel, bytes, now, b);
    } else if ChunkVerdict(a, other, t, rel, bytes) == Ok(true) {
      OtherWriteKeeps(a, other, rel, bytes, b, id, token);
    } else {
      UnwrittenKeeps(a, b, id, token);
    }
  }

  lemma {:induction false} RunPrefixStays(states: seq<Arena>, calls: seq<Call>, j: nat, k: nat, id: ObjectId,
                                          token: RequestId)
    requires IsRun(states, calls) && j <= k < |states| && token in states[j].issued
    ensures PrefixStays(states[j], states[k], id, token)
    decreases k
  {
    hide ArenaInv, PrefixStays;
    RunArenaInv(states, calls, j);
    RunArenaInv(states, calls, k);
    if j < k {
      RunPrefixStays(states, calls, j, k - 1, id, token);
      RunEvolves(states, calls, j, k - 1);
      RunEvolves(states, calls, k - 1, k);
      RunArenaInv(states, calls, k - 1);
      assert StepAt(states, calls, k - 1);
      PrefixStep(states[k - 1], calls[k - 1], states[k], id, token);
      PrefixThrough(states[j], states[k - 1], states[k], id, token);
    } else {
      SamePrefix(states[j], id, token);
    }
  }

  lemma SamePrefix(a: Arena, id: ObjectId, token: RequestId)
    ensures PrefixStays(a, a, id, token)
  {
  }

  /** Whatever else happens, in any run: an accepted chunk is part of the object its token commits. */
  lemma AcceptedChunkIsServed(states: seq<Arena>, calls: seq<Call>, j: nat, k: nat, id: ObjectId, token: RequestId,
                              rel: int, bytes: Bytes, now: int)
    requires IsRun(states, calls) && j < k < |states| && calls[j] == DoChunk(id, token, rel, bytes, now)
    requires WriteChunk(states[j], id, token, rel, bytes, now).reply.Ok?
    requires Current(states[k], id, token) && states[k].live[id].committed
    ensures var read := Read(states[k], id);
      read.Some? && 0 <= rel && rel + |bytes| <= |read.value| && read.value[rel..rel + |bytes|] == bytes
  {
    hide ArenaInv, WriteChunk, PrefixStays, Read;
    assert StepAt(states, calls, j);
    RunArenaInv(states, calls, j);
    RunArenaInv(states, calls, j + 1);
    RunArenaInv(states, calls, k);
    ChunkEffect(states[j], id, token, rel, bytes, now);
    ChunkKeepsReservation(states[j], id, token, rel, bytes, now);
    IssuedToken(states[j + 1], id);
    RunPrefixStays(states, calls, j + 1, k, id, token);
    StoredIsServed(states[j + 1], states[k], id, token, rel, bytes);
  }

  lemma ChunkKeepsReservation(a: Arena, id: ObjectId, token: RequestId, rel: int, bytes: Bytes, now: int)
    requires MayWrite(a, id, token)
    ensures var b := WriteChunk(a, id, token, rel, bytes, now).arena;
      id in b.live && SameReservation(a.live[id], b.live[id])
  {
  }

  lemma StoredIsServed(a: Arena, b: Arena, id: ObjectId, token: RequestId, rel: int, bytes: Bytes)
    requires ArenaInv(a) && ArenaInv(b) && PrefixStays(a, b, id, token)
    requires Current(a, id, token) && a.live[id].mode == Streamed && 0 <= rel
    requires rel + |bytes| <= a.live[id].writtenUntil && Piece(a, id, rel, |bytes|) == bytes
    requires Current(b, id, token) && b.live[id].committed
    ensures var read := Read(b, id);
      read.Some? && rel + |bytes| <= |read.value| && read.value[rel..rel + |bytes|] == bytes
  {
    hide ArenaInv;
    var e := a.live[id];
    EntryIsOk(a, id);
    ObjectInSlot(a, id);
    ObjectInSlot(b, id);
    PieceOfPrefix(a.mem, b.mem, e.offset, e.writtenUntil, rel, |bytes|);
    SliceWithin(b.mem, e.offset, e.size, rel, |bytes|);
  }

  lemma IssuedToken(a: Arena, id: ObjectId)
    requires ArenaInv(a) && id in a.live
    ensures a.live[id].reservation in a.issued
  {
    assert EntryOk(a.live[id], a.issued);
  }

  lemma PieceOfPrefix(m: Bytes, n: Bytes, offset: int, len: int, rel: int, size: int)
    requires 0 <= offset && 0 <= rel && 0 <= size && rel + size <= len && offset + len <= |m| && offset + len <= |n|
    requires Slice(m, offset, len) == Slice(n, offset, len)
    ensures Slice(m, offset + rel, size) == Slice(n, offset + rel, size)
  {
    SliceWithin(m, offset, len, rel, size);
    SliceWithin(n, offset, len, rel, size);
  }

  lemma SliceWithin(m: Bytes, offset: int, len: int, rel: int, size: int)
    requires 0 <= offset && 0 <= rel && 0 <= size && rel + size <= len && offset + len <= |m|
    ensures Slice(m, offset + rel, size) == Slice(m, offset, len)[rel..rel + size]
  {
    SliceOfSlice(m, offset, len, rel, rel + size);
  }

  // ---------------------------------------------------------------- inline puts

  /** An inline put that gets a place reads back as it was put; one that was there and committed is left as it is. */
  lemma PutReadsBack(a: Arena, id: ObjectId, bytes: Bytes, codec: Codec, checksum: Digest, now: int, token: RequestId,
                     order: seq<ObjectId>)
    requires ArenaInv(a) && |bytes| <= U64_MAX - 7 && token !in a.issued && IsOrder(order, ExpiredIds(a, now))
    ensures var (b, offset) := Put(a, id, bytes, codec, checksum, now, token, order);
      if id in a.live && a.live[id].committed then Read(b, id) == Read(a, id)
      else if offset.Some? then
        Read(b, id) == Some(bytes) && b.live[id].codec == codec && b.live[id].checksum == checksum
      else Read(b, id) == None
  {
    hide ArenaInv, Reserve, Commit, Read;
    var r := Reserve(a, id, |bytes|, codec, checksum, Direct, now, token, order);
    ReserveLeavesCommitted(a, id, |bytes|, codec, checksum, Direct, now, token, order, r);
    if r.reply.Ok? && !r.reply.value.committed {
      ReserveGives(a, id, |bytes|, codec, checksum, Direct, now, token, order, r);
      ReserveKeeps(a, id, |bytes|, codec, checksum, Direct, now, token, order, r.arena);
      FillReadsBack(r.arena, id, bytes);
    }
  }

  lemma FillReadsBack(a: Arena, id: ObjectId, bytes: Bytes)
    requires ArenaInv(a) && id in a.live && a.live[id].mode == Direct && a.live[id].size == |bytes|
    ensures var c := Commit(WriteAt(a, a.live[id].offset, bytes), id, a.live[id].reservation);
      && c.reply.Ok? && Read(c.arena, id) == Some(bytes)
      && c.arena.live[id].codec == a.live[id].codec && c.arena.live[id].checksum == a.live[id].checksum
  {
    hide ArenaInv;
    ObjectInSlot(a, id);
    SpliceReads(a.mem, a.live[id].offset, a.live[id].offset, bytes);
  }

  lemma ReserveLeavesCommitted(a: Arena, id: ObjectId, size: int, codec: Codec, checksum: Digest, mode: WriteMode,
                               now: int, token: RequestId, order: seq<ObjectId>, r: Outcome<Reservation>)
    requires ArenaInv(a) && IsOrder(order, ExpiredIds(a, now))
    requires r == Reserve(a, id, size, codec, checksum, mode, now, token, order)
    ensures if id in a.live && a.live[id].committed then
              Read(r.arena, id) == Read(a, id) && (r.reply.Ok? ==> r.reply.value.committed)
            else Read(r.arena, id) == None && (r.reply.Ok? ==> !r.reply.value.committed)
  {
    hide ArenaInv;
    ReleaseAllRest(a, order);
    CommittedIsKept(a, id, now);
    assert id in Elements(order) <==> id in ExpiredIds(a, now);
  }

  lemma CommittedIsKept(a: Arena, id: ObjectId, now: int)
    requires ArenaInv(a)
    ensures id in a.live && a.live[id].committed ==> id !in ExpiredIds(a, now)
  {
    assert id in a.live ==> EntryOk(a.live[id], a.issued);
  }
}
