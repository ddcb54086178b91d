/** Live and recycled slots tile the used part of the arena exactly, whatever the calls made so far. */
module Allocation {
  import opened Types
  import opened ArenaModel

  // ---------------------------------------------------------------- slot rounding

  /** Rounding is sound exactly when the rounded size still fits 64 bits. */
  lemma SlotHolds(size: int)
    requires 0 <= size <= U64_MAX
    ensures size <= SlotFor(size) && 0 < SlotFor(size) <==> size <= U64_MAX - 7
    ensures SlotFor(size) % 8 == 0 && SlotFor(size) < Max(size, 1) + 8
  {
    var rounded := (Max(size, 1) + 7) / 8 * 8;
    assert Max(size, 1) <= rounded < Max(size, 1) + 8;
    if size <= U64_MAX - 7 {
      assert rounded < U64_COUNT;
    } else {
      assert rounded == U64_COUNT;
    }
  }

  // ---------------------------------------------------------------- the invariant

  predicate InCut(cuts: map<int, int>, o: int, x: int)
  {
    o in cuts && o <= x < o + cuts[o]
  }

  ghost predicate Covered(cuts: map<int, int>, x: int)
  {
    exists o :: InCut(cuts, o, x)
  }

  /** The slots ever cut are aligned, disjoint and together make up `[0, top)`. */
  ghost predicate Tiled(a: Arena)
  {
    && 0 <= a.top <= ARENA_BYTES && a.top % 8 == 0 && |a.mem| == ARENA_BYTES
    && (forall o :: o in a.cuts ==> 0 <= o && o % 8 == 0 && a.cuts[o] % 8 == 0)
    && (forall o :: o in a.cuts ==> 0 < a.cuts[o] && o + a.cuts[o] <= a.top)
    && (forall o, p :: o in a.cuts && p in a.cuts && o < p ==> o + a.cuts[o] <= p)
    && (forall x :: 0 <= x < a.top ==> Covered(a.cuts, x))
  }

  function LiveOffsets(live: map<ObjectId, Entry>): set<int>
  {
    set id | id in live :: live[id].offset
  }

  /** Each live object has a cut slot of its own. */
  ghost predicate LivePlaced(live: map<ObjectId, Entry>, cuts: map<int, int>)
  {
    && (forall id :: id in live ==> live[id].offset in cuts && cuts[live[id].offset] == live[id].slot)
    && (forall i, j :: i in live && j in live && live[i].offset == live[j].offset ==> i == j)
  }

  /** Free lists hold cut slots of their size, none of them twice. */
  ghost predicate FreePlaced(free: map<int, seq<int>>, cuts: map<int, int>)
  {
    && (forall s, o :: o in FreeList(free, s) ==> o in cuts && cuts[o] == s)
    && (forall s :: NoDuplicates(FreeList(free, s)))
  }

  /** A cut slot is in its free list exactly when no object has it; those in `out` are in neither place. */
  ghost predicate Exclusive(a: Arena, out: set<int>)
  {
    forall o :: o in a.cuts ==>
      (o in FreeList(a.free, a.cuts[o]) <==> o !in LiveOffsets(a.live) && o !in out)
      && (o in out ==> o !in LiveOffsets(a.live))
  }

  ghost predicate Placed(a: Arena)
  {
    LivePlaced(a.live, a.cuts) && FreePlaced(a.free, a.cuts) && Exclusive(a, {})
  }

  predicate EntryOk(e: Entry, issued: set<RequestId>)
  {
    && 0 <= e.size <= e.slot && e.slot == SlotFor(e.size)
    && 0 <= e.writtenUntil <= e.size
    && (e.committed <==> e.reservedAt.None?)
    && (e.committed && e.mode.Streamed? ==> e.writtenUntil == e.size)
    && e.reservation in issued
  }

  ghost predicate EntriesOk(a: Arena)
  {
    && (forall id :: id in a.live ==> EntryOk(a.live[id], a.issued))
    && (forall i, j :: i in a.live && j in a.live && a.live[i].reservation == a.live[j].reservation ==> i == j)
  }

  function LiveAt(live: map<ObjectId, Entry>, slot: int): set<ObjectId>
  {
    set id | id in live && live[id].slot == slot
  }

  function CutsAt(cuts: map<int, int>, slot: int): set<int>
  {
    set o | o in cuts && cuts[o] == slot
  }

  /** No slot is lost or counted twice. */
  ghost predicate Counted(a: Arena)
  {
    forall s :: |CutsAt(a.cuts, s)| == |LiveAt(a.live, s)| + |FreeList(a.free, s)|
  }

  /** The same with one slot of size `slot` taken out. */
  ghost predicate CountedBut(a: Arena, slot: int)
  {
    forall s :: |CutsAt(a.cuts, s)| == |LiveAt(a.live, s)| + |FreeList(a.free, s)| + if s == slot then 1 else 0
  }

  ghost predicate ArenaInv(a: Arena)
  {
    Tiled(a) && Placed(a) && EntriesOk(a) && Counted(a)
  }

  // ---------------------------------------------------------------- what the invariant means

  /** Who has a byte: a live object or the `index`-th recycled slot of some size. */
  datatype Owner = OfObject(id: ObjectId) | Recycled(slot: int, index: nat)

  predicate Owns(a: Arena, w: Owner, x: int)
  {
    match w
    case OfObject(id) => id in a.live && a.live[id].offset <= x < a.live[id].offset + a.live[id].slot
    case Recycled(slot, index) =>
      && index < |FreeList(a.free, slot)|
      && FreeList(a.free, slot)[index] <= x < FreeList(a.free, slot)[index] + slot
  }

  /** Where the owner's slot starts. */
  function StartOf(a: Arena, w: Owner): int
  {
    match w
    case OfObject(id) => if id in a.live then a.live[id].offset else -1
    case Recycled(slot, index) =>
      if index < |FreeList(a.free, slot)| then FreeList(a.free, slot)[index] else -1
  }

  lemma OwnerHasCut(a: Arena, w: Owner, x: int)
    requires Tiled(a) && Placed(a) && Owns(a, w, x)
    ensures InCut(a.cuts, StartOf(a, w), x) && 0 <= x < a.top
  {
    if w.Recycled? {
      assert FreeList(a.free, w.slot)[w.index] in FreeList(a.free, w.slot);
    }
  }

  lemma LiveIsNotFree(a: Arena, id: ObjectId, slot: int, index: nat)
    requires Placed(a) && id in a.live && index < |FreeList(a.free, slot)|
    ensures a.live[id].offset != FreeList(a.free, slot)[index]
  {
    assert FreeList(a.free, slot)[index] in FreeList(a.free, slot);
    assert a.live[id].offset in LiveOffsets(a.live);
  }

  lemma SameStartSameOwner(a: Arena, v: Owner, w: Owner, x: int)
    requires Tiled(a) && Placed(a) && Owns(a, v, x) && Owns(a, w, x) && StartOf(a, v) == StartOf(a, w)
    ensures v == w
  {
    var o := StartOf(a, v);
    if v.Recycled? && w.Recycled? {
      assert FreeList(a.free, v.slot)[v.index] in FreeList(a.free, v.slot);
      assert FreeList(a.free, w.slot)[w.index] in FreeList(a.free, w.slot);
      assert v.slot == a.cuts[o] == w.slot;
      assert NoDuplicates(FreeList(a.free, v.slot));
    } else if v.Recycled? {
      LiveIsNotFree(a, w.id, v.slot, v.index);
    } else if w.Recycled? {
      LiveIsNotFree(a, v.id, w.slot, w.index);
    }
  }

  lemma CutHasOwner(a: Arena, o: int, x: int) returns (w: Owner)
    requires Placed(a) && InCut(a.cuts, o, x)
    ensures Owns(a, w, x)
  {
    var list := FreeList(a.free, a.cuts[o]);
    if o in list {
      var k :| 0 <= k < |list| && list[k] == o;
      w := Recycled(a.cuts[o], k);
    } else {
      var id :| id in a.live && a.live[id].offset == o;
      w := OfObject(id);
    }
  }

  /** The partition: every byte below the high-water mark has exactly one owner, every other byte none. */
  lemma Partition(a: Arena, x: int)
    requires ArenaInv(a)
    ensures (exists w :: Owns(a, w, x)) <==> 0 <= x < a.top
    ensures forall v, w :: Owns(a, v, x) && Owns(a, w, x) ==> v == w
  {
    if 0 <= x < a.top {
      assert Covered(a.cuts, x);
      var o :| InCut(a.cuts, o, x);
      var w := CutHasOwner(a, o, x);
    }
    forall w | Owns(a, w, x) ensures 0 <= x < a.top {
      OwnerHasCut(a, w, x);
    }
    forall v, w | Owns(a, v, x) && Owns(a, w, x) ensures v == w {
      OwnerHasCut(a, v, x);
      OwnerHasCut(a, w, x);
      SameStartSameOwner(a, v, w, x);
    }
  }

  /** A live object lies inside its own aligned slot, inside the arena. */
  lemma ObjectInSlot(a: Arena, id: ObjectId)
    requires ArenaInv(a) && id in a.live
    ensures var e := a.live[id];
      && e.offset % 8 == 0 && e.slot % 8 == 0 && 0 <= e.size <= e.slot
      && 0 <= e.offset && e.offset + e.slot <= a.top <= ARENA_BYTES == |a.mem|
  {
    assert EntryOk(a.live[id], a.issued);
  }

  /** Slots of different objects do not overlap. */
  lemma ObjectsDisjoint(a: Arena, i: ObjectId, j: ObjectId)
    requires ArenaInv(a) && i in a.live && j in a.live && i != j
    ensures a.live[i].offset + a.live[i].slot <= a.live[j].offset
      || a.live[j].offset + a.live[j].slot <= a.live[i].offset
  {
  }
}
