/** Runs of the arena: any sequence of calls, including the clients' own writes into the mapping. */
module ArenaRuns {
  import opened Types
  import opened ArenaModel
  import opened Allocation
  import opened ArenaSteps

  datatype Call =
    | DoReserve(id: ObjectId, size: int, codec: Codec, checksum: Digest, mode: WriteMode, now: int, token: RequestId,
                order: seq<ObjectId>)
    | DoCommit(id: ObjectId, token: RequestId)
    | DoRollback(id: ObjectId, token: RequestId)
    | DoChunk(id: ObjectId, token: RequestId, rel: int, bytes: Bytes, now: int)
    | DoDirect(id: ObjectId, rel: int, bytes: Bytes)
    | DoPut(id: ObjectId, bytes: Bytes, codec: Codec, checksum: Digest, now: int, token: RequestId,
            order: seq<ObjectId>)
    | DoRelease(id: ObjectId)

  /** Drawn tokens are fresh, sizes can be rounded, and a client's own write stays inside the object it has
      reserved for direct writing and not yet committed. */
  predicate Legal(a: Arena, c: Call)
  {
    match c
    case DoReserve(_, size, _, _, _, now, token, order) =>
      0 <= size <= U64_MAX - 7 && token !in a.issued && IsOrder(order, ExpiredIds(a, now))
    case DoPut(_, bytes, _, _, now, token, order) =>
      |bytes| <= U64_MAX - 7 && token !in a.issued && IsOrder(order, ExpiredIds(a, now))
    case DoChunk(_, _, rel, _, _) => 0 <= rel
    case DoDirect(id, rel, bytes) => DirectOk(a, id, rel, bytes)
    case _ => true
  }

  predicate DirectOk(a: Arena, id: ObjectId, rel: int, bytes: Bytes)
  {
    && id in a.live && a.live[id].mode.Direct? && !a.live[id].committed
    && 0 <= rel && rel + |bytes| <= a.live[id].size
  }

  function Next(a: Arena, c: Call): Arena
  {
    match c
    case DoReserve(id, size, codec, checksum, mode, now, token, order) =>
      Reserve(a, id, size, codec, checksum, mode, now, token, order).arena
    case DoCommit(id, token) => Commit(a, id, token).arena
    case DoRollback(id, token) => Rollback(a, id, token).arena
    case DoChunk(id, token, rel, bytes, now) => WriteChunk(a, id, token, rel, bytes, now).arena
    case DoDirect(id, rel, bytes) => DirectWrite(a, id, rel, bytes)
    case DoPut(id, bytes, codec, checksum, now, token, order) => Put(a, id, bytes, codec, checksum, now, token, order).0
    case DoRelease(id) => Release(a, id)
  }

  lemma NextKeepsArena(a: Arena, c: Call, b: Arena)
    requires Legal(a, c) && b == Next(a, c)
    ensures ArenaInv(a) ==> ArenaInv(b)
  {
    match c
    case DoReserve(id, size, codec, checksum, mode, now, token, order) =>
      ReserveKeeps(a, id, size, codec, checksum, mode, now, token, order, b);
    case DoCommit(id, token) => CommitKeeps(a, id, token, b);
    case DoRollback(id, token) => ReleaseKeeps(a, id);
    case DoChunk(id, token, rel, bytes, now) => WriteChunkKeeps(a, id, token, rel, bytes, now, b);
    case DoDirect(id, rel, bytes) => WriteAtKeeps(a, a.live[id].offset + rel, bytes);
    case DoPut(id, bytes, codec, checksum, now, token, order) =>
      PutKeeps(a, id, bytes, codec, checksum, now, token, order, b);
    case DoRelease(id) => ReleaseKeeps(a, id);
  }

  predicate StepAt(states: seq<Arena>, calls: seq<Call>, k: nat)
    requires k + 1 < |states| && k < |calls|
  {
    Legal(states[k], calls[k]) && states[k + 1] == Next(states[k], calls[k])
  }

  ghost predicate IsRun(states: seq<Arena>, calls: seq<Call>)
  {
    && |states| == |calls| + 1
    && |states[0].mem| == ARENA_BYTES && states[0] == Fresh(states[0].mem)
    && forall k :: 0 <= k < |calls| ==> StepAt(states, calls, k)
  }

  lemma FreshInv(mem: Bytes)
    requires |mem| == ARENA_BYTES
    ensures ArenaInv(Fresh(mem))
  {
    var a := Fresh(mem);
    assert forall s :: CutsAt(a.cuts, s) == {} && LiveAt(a.live, s) == {};
  }

  /** In every state of every run the slots tile `[0, top)` and each object lies in its own slot. */
  lemma {:induction false} RunArenaInv(states: seq<Arena>, calls: seq<Call>, k: nat)
    requires IsRun(states, calls) && k < |states|
    ensures ArenaInv(states[k])
    decreases k
  {
    if k == 0 {
      FreshInv(states[0].mem);
    } else {
      RunArenaInv(states, calls, k - 1);
      assert StepAt(states, calls, k - 1);
      NextKeepsArena(states[k - 1], calls[k - 1], states[k]);
    }
  }

  // ---------------------------------------------------------------- what a step may change

  /** `id` is reserved or committed under `token`. */
  predicate Current(a: Arena, id: ObjectId, token: RequestId)
  {
    id in a.live && a.live[id].reservation == token
  }

  /** The entry as far as it is fixed when it is reserved. */
  predicate SameReservation(e: Entry, f: Entry)
  {
    f.offset == e.offset && f.slot == e.slot && f.reservation == e.reservation
    && SameObject(f, e.size, e.codec, e.checksum, e.mode)
  }

  /** An entry either stays what it was or starts afresh under a token never seen before. */
  ghost predicate TokensStep(a: Arena, b: Arena)
  {
    && a.issued <= b.issued
    && forall id :: id in b.live ==>
         b.live[id].reservation !in a.issued || (id in a.live && SameReservation(a.live[id], b.live[id]))
  }

  /** What is committed stays as it is, byte for byte, for as long as it is there. */
  ghost predicate BytesStep(a: Arena, b: Arena)
  {
    forall id :: id in a.live && a.live[id].committed && Current(b, id, a.live[id].reservation) ==>
      b.live[id].committed && Contents(b, id) == Contents(a, id)
  }

  ghost predicate Evolves(a: Arena, b: Arena)
  {
    TokensStep(a, b) && BytesStep(a, b)
  }

  lemma EvolvesThrough(a: Arena, b: Arena, c: Arena)
    requires ArenaInv(a) && Evolves(a, b) && Evolves(b, c)
    ensures Evolves(a, c)
  {
    forall id | id in a.live && a.live[id].committed && Current(c, id, a.live[id].reservation)
      ensures c.live[id].committed && Contents(c, id) == Contents(a, id)
    {
      assert EntryOk(a.live[id], a.issued);
      assert Current(b, id, a.live[id].reservation);
    }
  }

  lemma SameEvolves(a: Arena)
    ensures Evolves(a, a)
  {
  }

  lemma ReleaseEvolves(a: Arena, id: ObjectId)
    ensures Evolves(a, Release(a, id))
  {
  }

  lemma ReapEvolves(a: Arena, order: seq<ObjectId>)
    ensures Evolves(a, ReleaseAll(a, order))
  {
    ReleaseAllRest(a, order);
  }

  lemma EnterEvolves(a: Arena, b: Arena, id: ObjectId, e: Entry)
    requires EntriesOk(a) && b.live == a.live && b.issued == a.issued && b.mem == a.mem
    requires id !in a.live && e.reservation !in a.issued
    ensures Evolves(a, Enter(b, id, e))
  {
    forall i | i in a.live ensures EntryOk(a.live[i], a.issued) {
    }
  }

  lemma ReserveInEvolves(a: Arena, id: ObjectId, size: int, codec: Codec, checksum: Digest, mode: WriteMode, now: int,
                         token: RequestId, b: Arena)
    requires EntriesOk(a) && b == ReserveIn(a, id, size, codec, checksum, mode, now, token).arena && token !in a.issued
    ensures Evolves(a, b)
  {
    hide Evolves, SlotFor, EntriesOk;
    SameEvolves(a);
    if id !in a.live && Allocate(a, SlotFor(size)).Some? {
      var (c, offset) := Allocate(a, SlotFor(size)).value;
      EnterEvolves(a, c, id, NewEntry(offset, size, codec, checksum, mode, now, token));
    }
  }

  lemma ReserveEvolves(a: Arena, id: ObjectId, size: int, codec: Codec, checksum: Digest, mode: WriteMode, now: int,
                       token: RequestId, order: seq<ObjectId>, b: Arena)
    requires ArenaInv(a) && token !in a.issued
    requires b == Reserve(a, id, size, codec, checksum, mode, now, token, order).arena
    ensures Evolves(a, b)
  {
    ReapEvolves(a, order);
    ReleaseAllKeeps(a, order);
    ReleaseAllRest(a, order);
    ReserveInEvolves(ReleaseAll(a, order), id, size, codec, checksum, mode, now, token, b);
    EvolvesThrough(a, ReleaseAll(a, order), b);
  }

  lemma CommitEvolves(a: Arena, id: ObjectId, token: RequestId, b: Arena)
    requires b == Commit(a, id, token).arena
    ensures Evolves(a, b)
  {
  }

  /** A write inside one object's slot leaves every other object's bytes alone. */
  lemma WriteElsewhere(a: Arena, id: ObjectId, rel: int, bytes: Bytes, other: ObjectId)
    requires ArenaInv(a) && id in a.live && other in a.live && id != other
    requires 0 <= rel && rel + |bytes| <= a.live[id].size
    ensures Contents(WriteAt(a, a.live[id].offset + rel, bytes), other) == Contents(a, other)
  {
    ObjectInSlot(a, id);
    ObjectInSlot(a, other);
    ObjectsDisjoint(a, id, other);
    var b := WriteAt(a, a.live[id].offset + rel, bytes);
    var from, size := a.live[other].offset, a.live[other].size;
    assert forall x :: from <= x < from + size ==> b.mem[x] == a.mem[x];
  }

  lemma WriteEvolves(a: Arena, id: ObjectId, rel: int, bytes: Bytes, b: Arena)
    requires ArenaInv(a) && id in a.live && !a.live[id].committed && 0 <= rel && rel + |bytes| <= a.live[id].size
    requires b.mem == WriteAt(a, a.live[id].offset + rel, bytes).mem && b.issued == a.issued
    requires id in b.live && SameReservation(a.live[id], b.live[id]) && b.live == a.live[id := b.live[id]]
    ensures Evolves(a, b)
  {
    forall other | other in a.live && other != id ensures Contents(b, other) == Contents(a, other) {
      WriteElsewhere(a, id, rel, bytes, other);
    }
  }

  lemma ChunkEvolves(a: Arena, id: ObjectId, token: RequestId, rel: int, bytes: Bytes, now: int, b: Arena)
    requires ArenaInv(a) && 0 <= rel && b == WriteChunk(a, id, token, rel, bytes, now).arena
    ensures Evolves(a, b)
  {
    if ChunkVerdict(a, id, token, rel, bytes) == Ok(true) {
      WriteEvolves(a, id, rel, bytes, b);
    }
  }

  /** An accepted reservation names an entry with the requested metadata. */
  lemma ReserveGives(a: Arena, id: ObjectId, size: int, codec: Codec, checksum: Digest, mode: WriteMode, now: int,
                     token: RequestId, order: seq<ObjectId>, r: Outcome<Reservation>)
    requires r == Reserve(a, id, size, codec, checksum, mode, now, token, order) && r.reply.Ok?
    ensures Current(r.arena, id, r.reply.value.reservation)
    ensures r.arena.live[id].offset == r.reply.value.offset && r.arena.live[id].committed == r.reply.value.committed
    ensures SameObject(r.arena.live[id], size, codec, checksum, mode)
  {
  }

  lemma FillEvolves(a: Arena, id: ObjectId, bytes: Bytes, token: RequestId, b: Arena)
    requires ArenaInv(a) && id in a.live && !a.live[id].committed && |bytes| == a.live[id].size
    requires b == Commit(WriteAt(a, a.live[id].offset, bytes), id, token).arena
    ensures Evolves(a, b)
  {
    var written := WriteAt(a, a.live[id].offset, bytes);
    WriteEvolves(a, id, 0, bytes, written);
    CommitEvolves(written, id, token, b);
    EvolvesThrough(a, written, b);
  }

  lemma PutEvolves(a: Arena, id: ObjectId, bytes: Bytes, codec: Codec, checksum: Digest, now: int, token: RequestId,
                   order: seq<ObjectId>, b: Arena)
    requires ArenaInv(a) && token !in a.issued && |bytes| <= U64_MAX - 7
    requires b == Put(a, id, bytes, codec, checksum, now, token, order).0
    ensures Evolves(a, b)
  {
    var r := Reserve(a, id, |bytes|, codec, checksum, Direct, now, token, order);
    ReserveEvolves(a, id, |bytes|, codec, checksum, Direct, now, token, order, r.arena);
    ReserveKeeps(a, id, |bytes|, codec, checksum, Direct, now, token, order, r.arena);
    if r.reply.Ok? && !r.reply.value.committed {
      ReserveGives(a, id, |bytes|, codec, checksum, Direct, now, token, order, r);
      FillEvolves(r.arena, id, bytes, r.reply.value.reservation, b);
      EvolvesThrough(a, r.arena, b);
    }
  }

  lemma NextEvolves(a: Arena, c: Call, b: Arena)
    requires ArenaInv(a) && Legal(a, c) && b == Next(a, c)
    ensures Evolves(a, b)
  {
    hide ArenaInv;
    match c
    case DoReserve(id, size, codec, checksum, mode, now, token, order) =>
      ReserveEvolves(a, id, size, codec, checksum, mode, now, token, order, b);
    case DoCommit(id, token) => CommitEvolves(a, id, token, b);
    case DoRollback(id, token) => ReleaseEvolves(a, id);
    case DoChunk(id, token, rel, bytes, now) => ChunkEvolves(a, id, token, rel, bytes, now, b);
    case DoDirect(id, rel, bytes) => WriteEvolves(a, id, rel, bytes, b);
    case DoPut(id, bytes, codec, checksum, now, token, order) =>
      PutEvolves(a, id, bytes, codec, checksum, now, token, order, b);
    case DoRelease(id) => ReleaseEvolves(a, id);
  }

  lemma {:induction false} RunEvolves(states: seq<Arena>, calls: seq<Call>, j: nat, k: nat)
    requires IsRun(states, calls) && j <= k < |states|
    ensures Evolves(states[j], states[k])
    decreases k
  {
    hide ArenaInv;
    if j < k {
      RunEvolves(states, calls, j, k - 1);
      RunArenaInv(states, calls, j);
      RunArenaInv(states, calls, k - 1);
      assert StepAt(states, calls, k - 1);
      NextEvolves(states[k - 1], calls[k - 1], states[k]);
      EvolvesThrough(states[j], states[k - 1], states[k]);
    }
  }

  // ---------------------------------------------------------------- tokens and committed bytes over runs

  /** A token that has been drawn and is not current for `id` never becomes current for it again. */
  lemma TokenNeverReturns(states: seq<Arena>, calls: seq<Call>, j: nat, k: nat, id: ObjectId, token: RequestId)
    requires IsRun(states, calls) && j <= k < |states|
    requires token in states[j].issued && !Current(states[j], id, token)
    ensures !Current(states[k], id, token)
  {
    RunEvolves(states, calls, j, k);
  }

  /** From then on it can neither write, commit nor roll back: each attempt is refused and changes nothing. */
  lemma StaleTokenRefused(states: seq<Arena>, calls: seq<Call>, j: nat, k: nat, id: ObjectId, token: RequestId,
                          rel: int, bytes: Bytes, now: int)
    requires IsRun(states, calls) && j <= k < |states|
    requires token in states[j].issued && !Current(states[j], id, token)
    ensures var a := states[k];
      && WriteChunk(a, id, token, rel, bytes, now).reply.Err? && WriteChunk(a, id, token, rel, bytes, now).arena == a
      && Commit(a, id, token).reply.Err? && Commit(a, id, token).arena == a
      && Rollback(a, id, token).reply.Err? && Rollback(a, id, token).arena == a
  {
    TokenNeverReturns(states, calls, j, k, id, token);
  }

  /** Whatever happens to other objects, a committed object reads the same until it is released. */
  lemma CommittedBytesStay(states: seq<Arena>, calls: seq<Call>, j: nat, k: nat, id: ObjectId)
    requires IsRun(states, calls) && j <= k < |states|
    requires id in states[j].live && states[j].live[id].committed
    requires Current(states[k], id, states[j].live[id].reservation)
    ensures Read(states[k], id) == Read(states[j], id)
  {
    RunEvolves(states, calls, j, k);
  }

  /** The reaper takes only reservations that have been idle for the whole retention time, never a commit. */
  lemma ReapSpares(a: Arena, now: int, order: seq<ObjectId>, id: ObjectId)
    requires ArenaInv(a) && IsOrder(order, ExpiredIds(a, now)) && id in a.live
    ensures id in ReleaseAll(a, order).live <==>
      a.live[id].committed || SatSub(now, a.live[id].reservedAt.value) < 60_000
  {
    ReleaseAllRest(a, order);
    assert EntryOk(a.live[id], a.issued);
    assert id in Elements(order) <==> id in ExpiredIds(a, now);
  }

  // ---------------------------------------------------------------- streamed writes

  /** As long as `token` is current for `id`, what has been written so far is the start of `data`. */
  ghost predicate Streams(a: Arena, id: ObjectId, token: RequestId, data: Bytes)
  {
    Current(a, id, token) ==>
      var e := a.live[id];
      && e.mode.Streamed? && e.size == |data| && 0 <= e.writtenUntil <= |data|
      && Slice(a.mem, e.offset, e.writtenUntil) == data[..e.writtenUntil]
  }

  /** Every chunk delivered under `token` is a piece of `data`; nothing else is asked of the delivery. */
  predicate DeliversOnly(c: Call, id: ObjectId, token: RequestId, data: Bytes)
  {
    c.DoChunk? && c.id == id && c.token == token && 0 <= c.rel && c.rel + |c.bytes| <= |data| ==>
      c.bytes == data[c.rel..c.rel + |c.bytes|]
  }

  lemma SpliceReads(mem: Bytes, offset: int, at: int, bytes: Bytes)
    requires 0 <= offset <= at && at + |bytes| <= |mem|
    ensures Slice(Splice(mem, at, bytes), offset, at + |bytes| - offset) == Slice(mem, offset, at - offset) + bytes
  {
  }

  lemma SliceOfSlice<T>(s: seq<T>, offset: nat, len: nat, from: nat, to: nat)
    requires offset + len <= |s| && from <= to <= len
    ensures s[offset..offset + len][from..to] == s[offset + from..offset + to]
  {
    var outer := s[offset..offset + len];
    assert forall i :: 0 <= i < len ==> outer[i] == s[offset + i];
    assert forall i :: 0 <= i < to - from ==> outer[from..to][i] == outer[from + i];
  }

  lemma ChunkStreams(a: Arena, id: ObjectId, token: RequestId, rel: int, bytes: Bytes, now: int, data: Bytes, b: Arena)
    requires ArenaInv(a) && 0 <= rel && b == WriteChunk(a, id, token, rel, bytes, now).arena
    requires Streams(a, id, token, data) && DeliversOnly(DoChunk(id, token, rel, bytes, now), id, token, data)
    ensures Streams(b, id, token, data)
  {
    hide ArenaInv;
    if ChunkVerdict(a, id, token, rel, bytes) == Ok(true) {
      ObjectInSlot(a, id);
      var e := a.live[id];
      SpliceReads(a.mem, e.offset, e.offset + rel, bytes);
      assert data[..rel] + bytes == data[..rel + |bytes|];
    }
  }

  /** A write elsewhere leaves the written prefix alone. */
  lemma WriteKeepsPrefix(a: Arena, other: ObjectId, rel: int, bytes: Bytes, id: ObjectId)
    requires ArenaInv(a) && id in a.live && other in a.live && id != other
    requires 0 <= rel && rel + |bytes| <= a.live[other].size
    ensures var e := a.live[id];
      Slice(WriteAt(a, a.live[other].offset + rel, bytes).mem, e.offset, e.writtenUntil)
      == Slice(a.mem, e.offset, e.writtenUntil)
  {
    WriteElsewhere(a, other, rel, bytes, id);
    ObjectInSlot(a, id);
    var e := a.live[id];
    assert EntryOk(e, a.issued);
    var b := WriteAt(a, a.live[other].offset + rel, bytes);
    assert Slice(a.mem, e.offset, e.writtenUntil) == Contents(a, id)[..e.writtenUntil];
    assert Slice(b.mem, e.offset, e.writtenUntil) == Contents(b, id)[..e.writtenUntil];
  }

  lemma UnwrittenStreams(a: Arena, b: Arena, id: ObjectId, token: RequestId, data: Bytes)
    requires Streams(a, id, token, data) && TokensStep(a, b) && token in a.issued && b.mem == a.mem
    requires Current(a, id, token) && Current(b, id, token) ==> b.live[id].writtenUntil == a.live[id].writtenUntil
    ensures Streams(b, id, token, data)
  {
  }

  lemma WriteStreams(a: Arena, other: ObjectId, rel: int, bytes: Bytes, b: Arena, id: ObjectId, token: RequestId,
                     data: Bytes)
    requires ArenaInv(a) && other in a.live && 0 <= rel && rel + |bytes| <= a.live[other].size
    requires Streams(a, id, token, data) && (id == other ==> !Current(a, id, token))
    requires b.mem == WriteAt(a, a.live[other].offset + rel, bytes).mem
    requires other in b.live && SameReservation(a.live[other], b.live[other])
    requires b.live == a.live[other := b.live[other]]
    ensures Streams(b, id, token, data)
  {
    if Current(b, id, token) {
      WriteKeepsPrefix(a, other, rel, bytes, id);
    }
  }

  lemma ReserveStreams(a: Arena, r: Call, b: Arena, id: ObjectId, token: RequestId, data: Bytes)
    requires ArenaInv(a) && r.DoReserve? && Legal(a, r) && b == Next(a, r) && token in a.issued
    requires Streams(a, id, token, data)
    ensures Streams(b, id, token, data)
  {
    var reaped := ReleaseAll(a, r.order);
    ReserveEvolves(a, r.id, r.size, r.codec, r.checksum, r.mode, r.now, r.token, r.order, b);
    ReleaseAllRest(a, r.order);
    assert b.mem == a.mem;
    assert Current(b, id, token) ==> b.live[id] == reaped.live[id];
    UnwrittenStreams(a, b, id, token, data);
  }

  lemma FillStreams(a: Arena, other: ObjectId, bytes: Bytes, key: RequestId, b: Arena, id: ObjectId, token: RequestId,
                    data: Bytes)
    requires ArenaInv(a) && other in a.live && a.live[other].mode.Direct? && |bytes| == a.live[other].size
    requires b == Commit(WriteAt(a, a.live[other].offset, bytes), other, key).arena
    requires Streams(a, id, token, data)
    ensures Streams(b, id, token, data)
  {
    WriteStreams(a, other, 0, bytes, b, id, token, data);
  }

  lemma PutStreams(a: Arena, p: Call, b: Arena, id: ObjectId, token: RequestId, data: Bytes)
    requires ArenaInv(a) && p.DoPut? && Legal(a, p) && b == Next(a, p) && token in a.issued
    requires Streams(a, id, token, data)
    ensures Streams(b, id, token, data)
  {
    hide ArenaInv;
    var c := DoReserve(p.id, |p.bytes|, p.codec, p.checksum, Direct, p.now, p.token, p.order);
    var r := Reserve(a, p.id, |p.bytes|, p.codec, p.checksum, Direct, p.now, p.token, p.order);
    ReserveStreams(a, c, r.arena, id, token, data);
    ReserveKeeps(a, p.id, |p.bytes|, p.codec, p.checksum, Direct, p.now, p.token, p.order, r.arena);
    if r.reply.Ok? && !r.reply.value.committed {
      ReserveGives(a, p.id, |p.bytes|, p.codec, p.checksum, Direct, p.now, p.token, p.order, r);
      FillStreams(r.arena, p.id, p.bytes, r.reply.value.reservation, b, id, token, data);
    }
  }

  lemma StreamsStep(a: Arena, c: Call, b: Arena, id: ObjectId, token: RequestId, data: Bytes)
    requires ArenaInv(a) && Legal(a, c) && b == Next(a, c) && token in a.issued
    requires Streams(a, id, token, data) && DeliversOnly(c, id, token, data)
    ensures Streams(b, id, token, data)
  {
    hide ArenaInv;
    match c
    case DoReserve(_, _, _, _, _, _, _, _) => ReserveStreams(a, c, b, id, token, data);
    case DoPut(_, _, _, _, _, _, _) => PutStreams(a, c, b, id, token, data);
    case DoChunk(other, t, rel, bytes, now) =>
      if other == id && t == token {
        ChunkStreams(a, id, token, rel, bytes, now, data, b);
      } else if ChunkVerdict(a, other, t, rel, bytes) == Ok(true) {
        WriteStreams(a, other, rel, bytes, b, id, token, data);
      }
    case DoDirect(other, rel, bytes) => WriteStreams(a, other, rel, bytes, b, id, token, data);
    case DoCommit(_, _) =>
    case DoRollback(_, _) =>
    case DoRelease(_) =>
  }

  lemma {:induction false} RunStreams(states: seq<Arena>, calls: seq<Call>, j: nat, k: nat, id: ObjectId,
                                      token: RequestId, data: Bytes)
    requires IsRun(states, calls) && j <= k < |states|
    requires token in states[j].issued && Streams(states[j], id, token, data)
    requires forall m :: j <= m < k ==> DeliversOnly(calls[m], id, token, data)
    ensures Streams(states[k], id, token, data)
    decreases k
  {
    hide ArenaInv;
    if j < k {
      RunStreams(states, calls, j, k - 1, id, token, data);
      RunEvolves(states, calls, j, k - 1);
      RunArenaInv(states, calls, k - 1);
      assert StepAt(states, calls, k - 1);
      StreamsStep(states[k - 1], calls[k - 1], states[k], id, token, data);
    }
  }

  /** Streamed round trip: reserve for `data`, let its chunks arrive in any order and any number of times
      amid any other calls; once a commit has gone through, the object reads back as `data`. */
  lemma StreamedRoundTrip(states: seq<Arena>, calls: seq<Call>, j: nat, k: nat, id: ObjectId, token: RequestId,
                          data: Bytes)
    requires IsRun(states, calls) && j <= k < |states|
    requires Current(states[j], id, token) && states[j].live[id].mode.Streamed?
    requires states[j].live[id].size == |data| && states[j].live[id].writtenUntil == 0
    requires forall m :: j <= m < k ==> DeliversOnly(calls[m], id, token, data)
    requires Current(states[k], id, token) && states[k].live[id].committed
    ensures Read(states[k], id) == Some(data)
  {
    RunArenaInv(states, calls, j);
    RunArenaInv(states, calls, k);
    assert EntryOk(states[j].live[id], states[j].issued);
    RunStreams(states, calls, j, k, id, token, data);
    assert EntryOk(states[k].live[id], states[k].issued);
    assert data[..|data|] == data;
  }
}
