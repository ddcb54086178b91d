/** The shared-memory arena as one value: an exact-fit allocator with free lists, reservation tokens and
    a contiguous-prefix writer. Hash orders, drawn tokens and the clock are arguments. */
module ArenaModel {
  import opened Types

  const ARENA_BYTES: int := 64 * 1024 * 1024 * 1024
  const RESERVE_TTL_MS: int := 60_000
  const U64_COUNT: int := 0x1_0000_0000_0000_0000

  datatype WriteMode = Direct | Streamed

  datatype Entry = Entry(
    offset: int,
    size: int,
    slot: int,
    codec: Codec,
    checksum: Digest,
    reservation: RequestId,
    mode: WriteMode,
    writtenUntil: int,
    committed: bool,
    reservedAt: Option<int>)

  /** `cuts` and `issued` are history the program does not keep: every slot ever cut from the top,
      by offset, and every token ever drawn. */
  datatype Arena = Arena(
    top: int,
    free: map<int, seq<int>>,
    live: map<ObjectId, Entry>,
    mem: Bytes,
    cuts: map<int, int>,
    issued: set<RequestId>)

  datatype Reservation = Reservation(offset: int, reservation: RequestId, committed: bool)

  datatype Meta = Meta(offset: int, size: int, codec: Codec, checksum: Digest)

  datatype Outcome<+T> = Outcome(arena: Arena, reply: Result<T>)

  function Fresh(mem: Bytes): Arena
  {
    Arena(0, map[], map[], mem, map[], {})
  }

  /** The slot an object of `size` bytes takes: rounded up to 8, in 64-bit arithmetic that wraps. */
  function SlotFor(size: int): int
  {
    (Max(size, 1) + 7) / 8 * 8 % U64_COUNT
  }

  function FreeList(free: map<int, seq<int>>, slot: int): seq<int>
  {
    if slot in free then free[slot] else []
  }

  function Pushed(free: map<int, seq<int>>, slot: int, offset: int): map<int, seq<int>>
  {
    free[slot := FreeList(free, slot) + [offset]]
  }

  /** Recycles the slot of `id`, if it has one. */
  function Release(a: Arena, id: ObjectId): Arena
  {
    if id !in a.live then a else
      a.(live := a.live - {id}, free := Pushed(a.free, a.live[id].slot, a.live[id].offset))
  }

  function ReleaseAll(a: Arena, order: seq<ObjectId>): Arena
  {
    if order == [] then a else Release(ReleaseAll(a, order[..|order| - 1]), order[|order| - 1])
  }

  predicate IsExpired(e: Entry, now: int)
  {
    e.reservedAt.Some? && SatSub(now, e.reservedAt.value) >= RESERVE_TTL_MS
  }

  function ExpiredIds(a: Arena, now: int): set<ObjectId>
  {
    set id | id in a.live && IsExpired(a.live[id], now)
  }

  predicate SameObject(e: Entry, size: int, codec: Codec, checksum: Digest, mode: WriteMode)
  {
    e.size == size && e.codec == codec && e.checksum == checksum && e.mode == mode
  }

  /** Takes the most recently freed slot of that size, or cuts a new one from the top. */
  function Allocate(a: Arena, slot: int): Option<(Arena, int)>
  {
    var list := FreeList(a.free, slot);
    if list != [] then
      Some((a.(free := a.free[slot := list[..|list| - 1]]), list[|list| - 1]))
    else if a.top + slot > ARENA_BYTES then None
    else Some((a.(top := a.top + slot, cuts := a.cuts[a.top := slot]), a.top))
  }

  function Enter(a: Arena, id: ObjectId, e: Entry): Arena
  {
    a.(live := a.live[id := e], issued := a.issued + {e.reservation})
  }

  function NewEntry(offset: int, size: int, codec: Codec, checksum: Digest, mode: WriteMode, now: int,
                    token: RequestId): Entry
  {
    Entry(offset, size, SlotFor(size), codec, checksum, token, mode, 0, false, Some(now))
  }

  /** Reservation in an arena whose expired reservations, listed by `order`, have just been reaped. */
  function ReserveIn(a: Arena, id: ObjectId, size: int, codec: Codec, checksum: Digest, mode: WriteMode, now: int,
                     token: RequestId): Outcome<Reservation>
  {
    if id in a.live then
      var e := a.live[id];
      if !SameObject(e, size, codec, checksum, mode) then Outcome(a, Err(ObjectConflict(id)))
      else Outcome(a, Ok(Reservation(e.offset, e.reservation, e.committed)))
    else
      match Allocate(a, SlotFor(size))
      case None => Outcome(a, Err(CapacityExceeded("arena exhausted")))
      case Some((b, offset)) =>
        Outcome(Enter(b, id, NewEntry(offset, size, codec, checksum, mode, now, token)),
                Ok(Reservation(offset, token, false)))
  }

  function Reserve(a: Arena, id: ObjectId, size: int, codec: Codec, checksum: Digest, mode: WriteMode, now: int,
                   token: RequestId, order: seq<ObjectId>): Outcome<Reservation>
  {
    ReserveIn(ReleaseAll(a, order), id, size, codec, checksum, mode, now, token)
  }

  function MetaOf(e: Entry): Meta
  {
    Meta(e.offset, e.size, e.codec, e.checksum)
  }

  function Commit(a: Arena, id: ObjectId, token: RequestId): Outcome<Meta>
  {
    if id !in a.live then Outcome(a, Err(ObjectNotFound(id)))
    else
      var e := a.live[id];
      if e.reservation != token then Outcome(a, Err(StaleFence))
      else if e.mode.Streamed? && e.writtenUntil != e.size then Outcome(a, Err(Protocol("arena object incomplete")))
      else Outcome(a.(live := a.live[id := e.(committed := true, reservedAt := None)]), Ok(MetaOf(e)))
  }

  function Rollback(a: Arena, id: ObjectId, token: RequestId): Outcome<()>
  {
    if id !in a.live then Outcome(a, Err(ObjectNotFound(id)))
    else if a.live[id].reservation != token || !a.live[id].committed then Outcome(a, Err(StaleFence))
    else Outcome(Release(a, id), Ok(()))
  }

  /** `bytes` copied over the memory from `offset` on. */
  function Splice(mem: Bytes, offset: int, bytes: Bytes): Bytes
    requires 0 <= offset && offset + |bytes| <= |mem|
  {
    mem[..offset] + bytes + mem[offset + |bytes|..]
  }

  /** The copy never leaves the mapping; outside it nothing is written. */
  function WriteAt(a: Arena, offset: int, bytes: Bytes): Arena
  {
    if 0 <= offset && offset + |bytes| <= |a.mem| then a.(mem := Splice(a.mem, offset, bytes)) else a
  }

  function Slice(mem: Bytes, offset: int, len: int): Bytes
  {
    if 0 <= offset && 0 <= len && offset + len <= |mem| then mem[offset..offset + len] else []
  }

  /** A write by the client itself, straight into the mapping. */
  function DirectWrite(a: Arena, id: ObjectId, rel: int, bytes: Bytes): Arena
  {
    if id in a.live then WriteAt(a, a.live[id].offset + rel, bytes) else a
  }

  function ChunkVerdict(a: Arena, id: ObjectId, token: RequestId, rel: int, bytes: Bytes): Result<bool>
  {
    if id !in a.live then Err(ObjectNotFound(id))
    else
      var e := a.live[id];
      if e.reservation != token || e.committed then Err(StaleFence)
      else if !e.mode.Streamed? then Err(Protocol("arena reservation is not streamed"))
      else if rel + |bytes| > U64_MAX || rel + |bytes| > e.size then Err(Protocol("put chunk out of bounds"))
      else if rel == e.writtenUntil then Ok(true)
      else if rel + |bytes| <= e.writtenUntil then
        if Slice(a.mem, e.offset + rel, |bytes|) == bytes then Ok(false) else Err(ObjectConflict(id))
      else Err(Protocol("put chunk must be contiguous"))
  }

  /** Extends the written prefix; a chunk that lies inside it must repeat what is there. */
  function WriteChunk(a: Arena, id: ObjectId, token: RequestId, rel: int, bytes: Bytes, now: int): Outcome<()>
  {
    match ChunkVerdict(a, id, token, rel, bytes)
    case Err(e) => Outcome(a, Err(e))
    case Ok(grows) =>
      if !grows then Outcome(a, Ok(())) else
      var e := a.live[id];
      var written := WriteAt(a, e.offset + rel, bytes);
      Outcome(written.(live := a.live[id := e.(writtenUntil := rel + |bytes|, reservedAt := Some(now))]), Ok(()))
  }

  /** The coordinator's own write: reserve, copy, commit. */
  function Put(a: Arena, id: ObjectId, bytes: Bytes, codec: Codec, checksum: Digest, now: int, token: RequestId,
               order: seq<ObjectId>): (Arena, Option<int>)
  {
    var r := Reserve(a, id, |bytes|, codec, checksum, Direct, now, token, order);
    match r.reply
    case Err(_) => (r.arena, None)
    case Ok(v) =>
      if v.committed then (r.arena, Some(v.offset))
      else
        var c := Commit(WriteAt(r.arena, v.offset, bytes), id, v.reservation);
        (c.arena, if c.reply.Ok? then Some(v.offset) else None)
  }

  /** The object's bytes as they stand, committed or not. */
  function Contents(a: Arena, id: ObjectId): Bytes
    requires id in a.live
  {
    Slice(a.mem, a.live[id].offset, a.live[id].size)
  }

  function Read(a: Arena, id: ObjectId): Option<Bytes>
  {
    if id in a.live && a.live[id].committed then Some(Contents(a, id)) else None
  }

  function ReadChunk(a: Arena, id: ObjectId, rel: int, len: int): Option<Bytes>
  {
    if id !in a.live || !a.live[id].committed then None
    else if rel + len > U64_MAX || rel + len > a.live[id].size then None
    else Some(Slice(a.mem, a.live[id].offset + rel, len))
  }
}
