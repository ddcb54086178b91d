/** Reservations, told from the state before the call: when one is granted, what it gets, and when the arena is
    exhausted. */
module Reservations {
  import opened Types
  import opened ArenaModel
  import opened Allocation
  import opened ArenaSteps

  /** The smallest positive multiple of eight that holds `size` bytes. */
  predicate FitsExactly(size: int, slot: int)
  {
    slot % 8 == 0 && 1 <= slot && size <= slot < Max(size, 1) + 8
  }

  /** The id has an object that is committed, or whose reservation was touched less than a minute ago. */
  predicate StillThere(a: Arena, id: ObjectId, now: int)
  {
    id in a.live && (a.live[id].reservedAt.None? || now - a.live[id].reservedAt.value < 60_000)
  }

  /** A slot of this size is recycled already, or is given up by an idle reservation, or fits on top. */
  predicate Room(a: Arena, now: int, slot: int)
  {
    || (slot in a.free && a.free[slot] != [])
    || (exists i :: i in a.live && !StillThere(a, i, now) && a.live[i].slot == slot)
    || a.top + slot <= 68_719_476_736
  }

  lemma StillThereMeans(a: Arena, id: ObjectId, now: int, order: seq<ObjectId>)
    requires IsOrder(order, ExpiredIds(a, now))
    ensures id in ReleaseAll(a, order).live <==> StillThere(a, id, now)
    ensures StillThere(a, id, now) ==> ReleaseAll(a, order).live[id] == a.live[id]
  {
    ReleaseAllRest(a, order);
    assert id in Elements(order) <==> id in ExpiredIds(a, now);
  }

  lemma {:induction false} ReleasedSlots(a: Arena, order: seq<ObjectId>, slot: int)
    requires NoDuplicates(order) && forall i :: i in order ==> i in a.live
    ensures FreeList(ReleaseAll(a, order).free, slot) != [] <==>
      FreeList(a.free, slot) != [] || exists i :: i in order && a.live[i].slot == slot
    decreases |order|
  {
    if order != [] {
      var init, last := order[..|order| - 1], order[|order| - 1];
      assert order == init + [last];
      ReleasedSlots(a, init, slot);
      ReleaseAllRest(a, init);
      assert last !in Elements(init);
    }
  }

  lemma RoomMeans(a: Arena, now: int, order: seq<ObjectId>, slot: int)
    requires IsOrder(order, ExpiredIds(a, now))
    ensures Allocate(ReleaseAll(a, order), slot).Some? <==> Room(a, now, slot)
  {
    forall i ensures i in order <==> i in a.live && !StillThere(a, i, now) {
      assert i in Elements(order) <==> i in ExpiredIds(a, now);
    }
    ReleasedSlots(a, order, slot);
    ReleaseAllRest(a, order);
  }

  /** A reservation of an id that is still there gives the same place again if it asks for the same object, and is a
      conflict if not. A new one is granted exactly when there is room, under the drawn token, with nothing written.
      Every other object stays exactly if it is still there. */
  lemma ReserveEffect(a: Arena, id: ObjectId, size: int, codec: Codec, checksum: Digest, mode: WriteMode, now: int,
                      token: RequestId, order: seq<ObjectId>, slot: int, other: ObjectId)
    requires 0 <= size <= U64_MAX - 7 && IsOrder(order, ExpiredIds(a, now)) && FitsExactly(size, slot)
    ensures var r := Reserve(a, id, size, codec, checksum, mode, now, token, order);
      && (if StillThere(a, id, now) then
            var e := a.live[id];
            && id in r.arena.live && r.arena.live[id] == e
            && r.reply == if e.size == size && e.codec == codec && e.checksum == checksum && e.mode == mode
                          then Ok(Reservation(e.offset, e.reservation, e.committed)) else Err(ObjectConflict(id))
          else if Room(a, now, slot) then
            && r.reply.Ok? && id in r.arena.live && r.reply.value == Reservation(r.arena.live[id].offset, token, false)
            && r.arena.live[id] == Entry(r.arena.live[id].offset, size, slot, codec, checksum, token, mode, 0, false,
                                         Some(now))
          else id !in r.arena.live && r.reply == Err(CapacityExceeded("arena exhausted")))
      && (other != id ==>
            && (other in r.arena.live <==> StillThere(a, other, now))
            && (other in r.arena.live ==> r.arena.live[other] == a.live[other]))
      && r.arena.mem == a.mem
  {
    hide ReleaseAll, StillThere, Room;
    SlotHolds(size);
    assert SlotFor(size) == slot;
    StillThereMeans(a, id, now, order);
    StillThereMeans(a, other, now, order);
    RoomMeans(a, now, order, slot);
    ReleaseAllRest(a, order);
  }

  lemma {:induction false} OtherSlotsSame(a: Arena, order: seq<ObjectId>, slot: int)
    requires NoDuplicates(order) && forall i :: i in order ==> i in a.live && a.live[i].slot != slot
    ensures FreeList(ReleaseAll(a, order).free, slot) == FreeList(a.free, slot)
    decreases |order|
  {
    if order != [] {
      var init, last := order[..|order| - 1], order[|order| - 1];
      assert order == init + [last];
      OtherSlotsSame(a, init, slot);
      ReleaseAllRest(a, init);
      assert last !in Elements(init);
    }
  }

  /** A new reservation takes the slot of its size that was recycled last and cuts a new one only when there is none.
      Here no idle reservation gives one up. */
  lemma ReserveReuses(a: Arena, id: ObjectId, size: int, codec: Codec, checksum: Digest, mode: WriteMode, now: int,
                      token: RequestId, order: seq<ObjectId>, slot: int)
    requires 0 <= size <= U64_MAX - 7 && IsOrder(order, ExpiredIds(a, now)) && FitsExactly(size, slot)
    requires !StillThere(a, id, now) && Room(a, now, slot)
    requires forall i :: i in a.live && !StillThere(a, i, now) ==> a.live[i].slot != slot
    ensures var r := Reserve(a, id, size, codec, checksum, mode, now, token, order);
      && id in r.arena.live
      && if slot in a.free && a.free[slot] != [] then
           && r.arena.live[id].offset == a.free[slot][|a.free[slot]| - 1] && r.arena.top == a.top
           && FreeList(r.arena.free, slot) == a.free[slot][..|a.free[slot]| - 1]
         else r.arena.live[id].offset == a.top && r.arena.top == a.top + slot
  {
    SlotHolds(size);
    assert SlotFor(size) == slot;
    forall i ensures i in order <==> i in a.live && !StillThere(a, i, now) {
      assert i in Elements(order) <==> i in ExpiredIds(a, now);
    }
    OtherSlotsSame(a, order, slot);
    ReleaseAllRest(a, order);
    StillThereMeans(a, id, now, order);
    RoomMeans(a, now, order, slot);
    hide ReleaseAll, StillThere;
  }
}
