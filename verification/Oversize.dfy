/** What becomes of a reservation whose size is too large to round. */
module Oversize {
  import opened Types
  import opened ArenaModel
  import opened Allocation
  import opened ArenaSteps
  import opened ArenaRuns

  lemma FreeSlotsArePositive(a: Arena, slot: int, k: nat)
    requires ArenaInv(a) && k < |FreeList(a.free, slot)|
    ensures 0 < slot
  {
    var o := FreeList(a.free, slot)[k];
    assert o in FreeList(a.free, slot);
    assert o in a.cuts && a.cuts[o] == slot;
  }

  lemma NoEmptyFreeSlots(a: Arena)
    requires ArenaInv(a)
    ensures FreeList(a.free, 0) == []
  {
    if |FreeList(a.free, 0)| > 0 {
      FreeSlotsArePositive(a, 0, 0);
    }
  }

  lemma OversizedSlotIsEmpty(size: int)
    requires U64_MAX - 7 < size <= U64_MAX
    ensures SlotFor(size) == 0
  {
    assert (size + 7) / 8 * 8 == U64_COUNT;
  }

  /** It is not refused: it gets an empty slot at the top, which cannot hold it. */
  lemma OversizedReservation(a: Arena, id: ObjectId, size: int, codec: Codec, checksum: Digest, mode: WriteMode,
                             now: int, token: RequestId)
    requires ArenaInv(a) && id !in a.live && U64_MAX - 7 < size <= U64_MAX
    ensures var r := ReserveIn(a, id, size, codec, checksum, mode, now, token);
      && r.reply == Ok(Reservation(a.top, token, false)) && id in r.arena.live
      && r.arena.live == a.live[id := NewEntry(a.top, size, codec, checksum, mode, now, token)]
      && r.arena.live[id].slot == 0 < r.arena.live[id].size && !ArenaInv(r.arena)
      && r.arena.top == a.top && r.arena.free == a.free && r.arena.mem == a.mem
  {
    OversizedSlotIsEmpty(size);
    NoEmptyFreeSlots(a);
    var b := ReserveIn(a, id, size, codec, checksum, mode, now, token).arena;
    assert !EntryOk(b.live[id], b.issued);
  }

  /** The id has a reservation or a commit that the reaper will not take. */
  predicate Kept(a: Arena, id: ObjectId, now: int)
  {
    id in a.live && !IsExpired(a.live[id], now)
  }

  /** A reservation keeps the arena sound exactly when its size can be rounded or the id is already kept. */
  lemma ReserveSoundIff(a: Arena, id: ObjectId, size: int, codec: Codec, checksum: Digest, mode: WriteMode, now: int,
                        token: RequestId, order: seq<ObjectId>, r: Outcome<Reservation>)
    requires ArenaInv(a) && 0 <= size <= U64_MAX && token !in a.issued && IsOrder(order, ExpiredIds(a, now))
    requires r == Reserve(a, id, size, codec, checksum, mode, now, token, order)
    ensures ArenaInv(r.arena) <==> size <= U64_MAX - 7 || Kept(a, id, now)
  {
    var reaped := ReleaseAll(a, order);
    ReleaseAllKeeps(a, order);
    ReleaseAllRest(a, order);
    assert id in reaped.live <==> Kept(a, id, now) by {
      assert id in Elements(order) <==> id in ExpiredIds(a, now);
    }
    if size <= U64_MAX - 7 {
      ReserveInKeeps(reaped, id, size, codec, checksum, mode, now, token, r.arena);
    } else if id in reaped.live {
      OversizedSlotIsEmpty(size);
      assert EntryOk(reaped.live[id], reaped.issued);
    } else {
      OversizedReservation(reaped, id, size, codec, checksum, mode, now, token);
    }
  }

  /** The next slot cut from the top starts where the oversized object does, while both are live. */
  lemma SameOffset(a: Arena, id: ObjectId, size: int, other: ObjectId, need: int, codec: Codec, checksum: Digest,
                   mode: WriteMode, otherMode: WriteMode, now: int, token: RequestId, otherToken: RequestId)
    requires ArenaInv(a) && id !in a.live && other !in a.live && id != other && U64_MAX - 7 < size <= U64_MAX
    requires FreeList(a.free, SlotFor(need)) == [] && a.top + SlotFor(need) <= ARENA_BYTES
    ensures var b := ReserveIn(a, id, size, codec, checksum, mode, now, token).arena;
      var c := ReserveIn(b, other, need, codec, checksum, otherMode, now, otherToken);
      && c.reply == Ok(Reservation(a.top, otherToken, false))
      && id in c.arena.live && other in c.arena.live
      && c.arena.live[id].offset == c.arena.live[other].offset == a.top
      && c.arena.live[id] == NewEntry(a.top, size, codec, checksum, mode, now, token)
      && c.arena.live[other] == NewEntry(a.top, need, codec, checksum, otherMode, now, otherToken)
      && c.arena.mem == a.mem
  {
    OversizedReservation(a, id, size, codec, checksum, mode, now, token);
  }

  lemma SpliceThenSlice(mem: Bytes, offset: int, bytes: Bytes)
    requires 0 <= offset && offset + |bytes| <= |mem|
    ensures Slice(Splice(mem, offset, bytes), offset, |bytes|) == bytes
  {
  }

  /** So committed bytes do not stay: a chunk accepted under the oversized object's own token replaces the bytes
      of an object that was committed before. */
  lemma OversizedOverwrites(a: Arena, id: ObjectId, size: int, other: ObjectId, bytes: Bytes, chunk: Bytes,
                            codec: Codec, checksum: Digest, now: int, token: RequestId, otherToken: RequestId)
    requires ArenaInv(a) && id !in a.live && other !in a.live && id != other && U64_MAX - 7 < size <= U64_MAX
    requires |chunk| == |bytes| <= U64_MAX - 7 && ExpiredIds(a, now) == {}
    requires FreeList(a.free, SlotFor(|bytes|)) == [] && a.top + SlotFor(|bytes|) <= ARENA_BYTES
    ensures var b := Reserve(a, id, size, codec, checksum, Streamed, now, token, []).arena;
      var c := Put(b, other, bytes, codec, checksum, now, otherToken, []).0;
      var d := WriteChunk(c, id, token, 0, chunk, now);
      && IsOrder([], ExpiredIds(a, now)) && IsOrder([], ExpiredIds(b, now))
      && Read(c, other) == Some(bytes) && d.reply == Ok(())
      && Current(c, other, otherToken) && Current(d.arena, other, otherToken)
      && Read(d.arena, other) == Some(chunk)
  {
    hide ArenaInv, ReserveIn, SlotFor;
    var b := Reserve(a, id, size, codec, checksum, Streamed, now, token, []).arena;
    OversizedReservation(a, id, size, codec, checksum, Streamed, now, token);
    assert forall i :: i in b.live ==> b.live[i] == if i == id then b.live[id] else a.live[i];
    assert forall i :: i in a.live ==> i !in ExpiredIds(a, now);
    assert ExpiredIds(b, now) == {} == Elements<ObjectId>([]);
    SlotHolds(|bytes|);
    SameOffset(a, id, size, other, |bytes|, codec, checksum, Streamed, Direct, now, token, otherToken);
    assert |a.mem| == ARENA_BYTES && 0 <= a.top by { ArenaIsMapped(a); }
    var r := ReserveIn(b, other, |bytes|, codec, checksum, Direct, now, otherToken);
    SpliceThenSlice(a.mem, a.top, bytes);
    var c := Put(b, other, bytes, codec, checksum, now, otherToken, []).0;
    assert c.mem == Splice(a.mem, a.top, bytes);
    SpliceThenSlice(c.mem, a.top, chunk);
  }

  lemma ArenaIsMapped(a: Arena)
    requires ArenaInv(a)
    ensures |a.mem| == ARENA_BYTES && 0 <= a.top
  {
  }
}
