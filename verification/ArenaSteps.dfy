/** Every arena call keeps the partition, the entries and the count. */
module ArenaSteps {
  import opened Types
  import opened ArenaModel
  import opened Allocation

  // ---------------------------------------------------------------- release

  lemma LiveOffsetsLose(live: map<ObjectId, Entry>, id: ObjectId)
    requires id in live
    requires forall i, j :: i in live && j in live && live[i].offset == live[j].offset ==> i == j
    ensures LiveOffsets(live - {id}) == LiveOffsets(live) - {live[id].offset}
  {
    forall o | o in LiveOffsets(live) && o != live[id].offset ensures o in LiveOffsets(live - {id}) {
      var j :| j in live && live[j].offset == o;
      assert j in live - {id} && (live - {id})[j].offset == o;
    }
  }

  lemma PushedLists(free: map<int, seq<int>>, slot: int, offset: int, s: int)
    ensures FreeList(Pushed(free, slot, offset), s) ==
      if s == slot then FreeList(free, s) + [offset] else FreeList(free, s)
  {
  }

  lemma PushPlaces(free: map<int, seq<int>>, cuts: map<int, int>, slot: int, offset: int)
    requires FreePlaced(free, cuts) && offset in cuts && cuts[offset] == slot && offset !in FreeList(free, slot)
    ensures FreePlaced(Pushed(free, slot, offset), cuts)
  {
    var pushed := Pushed(free, slot, offset);
    forall s, o | o in FreeList(pushed, s) ensures o in cuts && cuts[o] == s {
      PushedLists(free, slot, offset, s);
      assert o in FreeList(free, s) || (o == offset && s == slot);
    }
    forall s ensures NoDuplicates(FreeList(pushed, s)) {
      PushedLists(free, slot, offset, s);
      NoDuplicatesConcat(FreeList(free, slot), [offset]);
    }
  }

  lemma ReleaseExclusive(a: Arena, id: ObjectId)
    requires LivePlaced(a.live, a.cuts) && Exclusive(a, {}) && id in a.live
    ensures Exclusive(Release(a, id), {})
  {
    var b := Release(a, id);
    var e := a.live[id];
    LiveOffsetsLose(a.live, id);
    forall o | o in b.cuts ensures o in FreeList(b.free, b.cuts[o]) <==> o !in LiveOffsets(b.live) {
      PushedLists(a.free, e.slot, e.offset, a.cuts[o]);
      assert o in FreeList(a.free, a.cuts[o]) <==> o !in LiveOffsets(a.live);
    }
  }

  lemma ReleasePlaces(a: Arena, id: ObjectId)
    requires Placed(a) && id in a.live
    ensures Placed(Release(a, id))
  {
    var e := a.live[id];
    assert e.offset in LiveOffsets(a.live);
    PushPlaces(a.free, a.cuts, e.slot, e.offset);
    ReleaseExclusive(a, id);
  }

  lemma LiveAtLoses(live: map<ObjectId, Entry>, id: ObjectId, s: int)
    requires id in live
    ensures |LiveAt(live - {id}, s)| == |LiveAt(live, s)| - if s == live[id].slot then 1 else 0
  {
    if s == live[id].slot {
      assert LiveAt(live, s) == LiveAt(live - {id}, s) + {id};
    } else {
      assert LiveAt(live, s) == LiveAt(live - {id}, s);
    }
  }

  lemma LiveAtGains(live: map<ObjectId, Entry>, id: ObjectId, e: Entry, s: int)
    requires id !in live
    ensures |LiveAt(live[id := e], s)| == |LiveAt(live, s)| + if s == e.slot then 1 else 0
  {
    if s == e.slot {
      assert LiveAt(live[id := e], s) == LiveAt(live, s) + {id};
    } else {
      assert LiveAt(live[id := e], s) == LiveAt(live, s);
    }
  }

  lemma ReleaseCounts(a: Arena, id: ObjectId)
    requires Counted(a) && id in a.live
    ensures Counted(Release(a, id))
  {
    var e := a.live[id];
    forall s
      ensures |CutsAt(a.cuts, s)| == |LiveAt(a.live - {id}, s)| + |FreeList(Pushed(a.free, e.slot, e.offset), s)|
    {
      LiveAtLoses(a.live, id, s);
      PushedLists(a.free, e.slot, e.offset, s);
    }
  }

  lemma ReleaseKeeps(a: Arena, id: ObjectId)
    ensures ArenaInv(a) ==> ArenaInv(Release(a, id))
  {
    if ArenaInv(a) && id in a.live {
      ReleasePlaces(a, id);
      ReleaseCounts(a, id);
    }
  }

  lemma {:induction false} ReleaseAllKeeps(a: Arena, order: seq<ObjectId>)
    ensures ArenaInv(a) ==> ArenaInv(ReleaseAll(a, order))
    decreases |order|
  {
    if order != [] {
      ReleaseAllKeeps(a, order[..|order| - 1]);
      ReleaseKeeps(ReleaseAll(a, order[..|order| - 1]), order[|order| - 1]);
    }
  }

  // ---------------------------------------------------------------- reserve

  /** A slot taken off its free list, or freshly cut, on its way to an object. */
  ghost predicate Detached(a: Arena, slot: int, offset: int)
  {
    && Tiled(a) && LivePlaced(a.live, a.cuts) && FreePlaced(a.free, a.cuts)
    && offset in a.cuts && a.cuts[offset] == slot
    && Exclusive(a, {offset}) && CountedBut(a, slot)
  }

  lemma PoppedLists(free: map<int, seq<int>>, slot: int, s: int)
    requires FreeList(free, slot) != []
    ensures var list := FreeList(free, slot);
      FreeList(free[slot := list[..|list| - 1]], s) == if s == slot then list[..|list| - 1] else FreeList(free, s)
  {
  }

  lemma LastOut(list: seq<int>, o: int)
    requires NoDuplicates(list) && list != []
    ensures NoDuplicates(list[..|list| - 1])
    ensures o in list[..|list| - 1] <==> o in list && o != list[|list| - 1]
  {
    assert list == list[..|list| - 1] + [list[|list| - 1]];
  }

  lemma PopPlaces(free: map<int, seq<int>>, cuts: map<int, int>, slot: int)
    requires FreePlaced(free, cuts) && FreeList(free, slot) != []
    ensures FreePlaced(free[slot := FreeList(free, slot)[..|FreeList(free, slot)| - 1]], cuts)
  {
    var list := FreeList(free, slot);
    var popped := free[slot := list[..|list| - 1]];
    forall s, o | o in FreeList(popped, s) ensures o in cuts && cuts[o] == s {
      PoppedLists(free, slot, s);
      LastOut(list, o);
      assert o in FreeList(free, s);
    }
    forall s ensures NoDuplicates(FreeList(popped, s)) {
      PoppedLists(free, slot, s);
      LastOut(list, 0);
    }
  }

  lemma PopExclusive(a: Arena, slot: int, b: Arena, offset: int)
    requires Exclusive(a, {}) && FreePlaced(a.free, a.cuts) && FreeList(a.free, slot) != []
    requires Allocate(a, slot) == Some((b, offset))
    ensures Exclusive(b, {offset})
  {
    var list := FreeList(a.free, slot);
    assert offset in list;
    forall o | o in b.cuts
      ensures o in FreeList(b.free, b.cuts[o]) <==> o !in LiveOffsets(b.live) && o != offset
      ensures o == offset ==> o !in LiveOffsets(b.live)
    {
      PoppedLists(a.free, slot, a.cuts[o]);
      LastOut(list, o);
      assert o in FreeList(a.free, a.cuts[o]) <==> o !in LiveOffsets(a.live);
    }
  }

  lemma PopCounts(a: Arena, slot: int, b: Arena, offset: int)
    requires Counted(a) && FreeList(a.free, slot) != [] && Allocate(a, slot) == Some((b, offset))
    ensures CountedBut(b, slot)
  {
    forall s { PoppedLists(a.free, slot, s); }
  }

  lemma PopDetaches(a: Arena, slot: int)
    requires Tiled(a) && Placed(a) && Counted(a) && FreeList(a.free, slot) != []
    ensures Detached(Allocate(a, slot).value.0, slot, Allocate(a, slot).value.1)
  {
    hide Exclusive, CountedBut, Counted, LivePlaced;
    var (b, offset) := Allocate(a, slot).value;
    PopPlaces(a.free, a.cuts, slot);
    PopExclusive(a, slot, b, offset);
    PopCounts(a, slot, b, offset);
    assert offset in FreeList(a.free, slot);
  }

  lemma CutTiles(a: Arena, slot: int)
    requires Tiled(a) && FreeList(a.free, slot) == [] && a.top + slot <= ARENA_BYTES && 0 < slot && slot % 8 == 0
    ensures Tiled(Allocate(a, slot).value.0)
  {
    var b := Allocate(a, slot).value.0;
    forall x | 0 <= x < b.top ensures Covered(b.cuts, x) {
      if x < a.top {
        assert Covered(a.cuts, x);
        var o :| InCut(a.cuts, o, x);
        assert InCut(b.cuts, o, x);
      } else {
        assert InCut(b.cuts, a.top, x);
      }
    }
  }

  lemma CutsGain(cuts: map<int, int>, o: int, slot: int, s: int)
    requires o !in cuts
    ensures |CutsAt(cuts[o := slot], s)| == |CutsAt(cuts, s)| + if s == slot then 1 else 0
  {
    if s == slot {
      assert CutsAt(cuts[o := slot], s) == CutsAt(cuts, s) + {o};
    } else {
      assert CutsAt(cuts[o := slot], s) == CutsAt(cuts, s);
    }
  }

  lemma CutCounts(a: Arena, slot: int, b: Arena)
    requires Counted(a) && a.top !in a.cuts && b == a.(top := b.top, cuts := a.cuts[a.top := slot])
    ensures CountedBut(b, slot)
  {
    forall s { CutsGain(a.cuts, a.top, slot, s); }
  }

  lemma CutPlaces(a: Arena, o: int, slot: int)
    requires LivePlaced(a.live, a.cuts) && FreePlaced(a.free, a.cuts) && o !in a.cuts
    ensures LivePlaced(a.live, a.cuts[o := slot]) && FreePlaced(a.free, a.cuts[o := slot])
  {
  }

  lemma CutExclusive(a: Arena, slot: int, b: Arena)
    requires Exclusive(a, {}) && LivePlaced(a.live, a.cuts) && FreeList(a.free, slot) == [] && a.top !in a.cuts
    requires b == a.(top := b.top, cuts := a.cuts[a.top := slot])
    ensures Exclusive(b, {a.top})
  {
    forall o | o in b.cuts
      ensures o in FreeList(b.free, b.cuts[o]) <==> o !in LiveOffsets(b.live) && o != a.top
      ensures o == a.top ==> o !in LiveOffsets(b.live)
    {
      if o != a.top {
        assert o in FreeList(a.free, a.cuts[o]) <==> o !in LiveOffsets(a.live);
      }
    }
  }

  lemma CutDetaches(a: Arena, slot: int)
    requires Tiled(a) && Placed(a) && Counted(a) && FreeList(a.free, slot) == []
    requires a.top + slot <= ARENA_BYTES && 0 < slot && slot % 8 == 0
    ensures Detached(Allocate(a, slot).value.0, slot, a.top)
  {
    var b := Allocate(a, slot).value.0;
    assert a.top !in a.cuts;
    hide Tiled, Exclusive, CountedBut, Counted, LivePlaced, FreePlaced;
    CutTiles(a, slot);
    CutPlaces(a, a.top, slot);
    CutExclusive(a, slot, b);
    CutCounts(a, slot, b);
  }

  lemma LiveOffsetsGain(live: map<ObjectId, Entry>, id: ObjectId, e: Entry)
    requires id !in live
    ensures LiveOffsets(live[id := e]) == LiveOffsets(live) + {e.offset}
  {
    var after := live[id := e];
    forall o | o in LiveOffsets(live) ensures o in LiveOffsets(after) {
      var j :| j in live && live[j].offset == o;
      assert j in after && after[j].offset == o;
    }
    assert id in after && after[id].offset == e.offset;
  }

  lemma EnterPlaces(b: Arena, id: ObjectId, e: Entry)
    requires Detached(b, e.slot, e.offset) && id !in b.live
    ensures Placed(Enter(b, id, e))
  {
    var c := Enter(b, id, e);
    LiveOffsetsGain(b.live, id, e);
    forall j | j in b.live ensures b.live[j].offset != e.offset {
      assert b.live[j].offset in LiveOffsets(b.live);
    }
    assert LivePlaced(c.live, c.cuts);
  }

  lemma EnterCounts(b: Arena, id: ObjectId, e: Entry)
    requires CountedBut(b, e.slot) && id !in b.live
    ensures Counted(Enter(b, id, e))
  {
    forall s { LiveAtGains(b.live, id, e, s); }
  }

  lemma AllocateDetaches(a: Arena, slot: int)
    requires Tiled(a) && Placed(a) && Counted(a) && 0 < slot && slot % 8 == 0 && Allocate(a, slot).Some?
    ensures Detached(Allocate(a, slot).value.0, slot, Allocate(a, slot).value.1)
  {
    if FreeList(a.free, slot) == [] {
      CutDetaches(a, slot);
    } else {
      PopDetaches(a, slot);
    }
  }

  lemma EnterKeepsEntries(a: Arena, b: Arena, id: ObjectId, e: Entry)
    requires EntriesOk(a) && b.live == a.live && b.issued == a.issued && id !in a.live
    requires e.reservation !in a.issued && EntryOk(e, a.issued + {e.reservation})
    ensures EntriesOk(Enter(b, id, e))
  {
    forall j | j in a.live ensures EntryOk(a.live[j], a.issued + {e.reservation}) {
      assert EntryOk(a.live[j], a.issued);
    }
  }

  lemma EnterKeeps(a: Arena, c: Arena, id: ObjectId, e: Entry)
    requires EntriesOk(a) && c.live == a.live && c.issued == a.issued && id !in a.live
    requires e.reservation !in a.issued && EntryOk(e, a.issued + {e.reservation})
    requires Detached(c, e.slot, e.offset)
    ensures ArenaInv(Enter(c, id, e))
  {
    EnterPlaces(c, id, e);
    EnterCounts(c, id, e);
    EnterKeepsEntries(a, c, id, e);
  }

  lemma ReserveInKeeps(a: Arena, id: ObjectId, size: int, codec: Codec, checksum: Digest, mode: WriteMode, now: int,
                       token: RequestId, b: Arena)
    requires b == ReserveIn(a, id, size, codec, checksum, mode, now, token).arena
    requires 0 <= size <= U64_MAX - 7 && token !in a.issued
    ensures ArenaInv(a) ==> ArenaInv(b)
  {
    SlotHolds(size);
    if ArenaInv(a) && id !in a.live && Allocate(a, SlotFor(size)).Some? {
      AllocateDetaches(a, SlotFor(size));
      var (c, offset) := Allocate(a, SlotFor(size)).value;
      EnterKeeps(a, c, id, NewEntry(offset, size, codec, checksum, mode, now, token));
    }
  }

  lemma {:induction false} ReleaseAllRest(a: Arena, order: seq<ObjectId>)
    ensures ReleaseAll(a, order).issued == a.issued && ReleaseAll(a, order).mem == a.mem
    ensures ReleaseAll(a, order).cuts == a.cuts && ReleaseAll(a, order).top == a.top
    ensures ReleaseAll(a, order).live == a.live - Elements(order)
    decreases |order|
  {
    if order != [] {
      ReleaseAllRest(a, order[..|order| - 1]);
      assert Elements(order) == Elements(order[..|order| - 1]) + {order[|order| - 1]} by {
        assert order == order[..|order| - 1] + [order[|order| - 1]];
      }
    }
  }

  lemma ReserveKeeps(a: Arena, id: ObjectId, size: int, codec: Codec, checksum: Digest, mode: WriteMode, now: int,
                     token: RequestId, order: seq<ObjectId>, b: Arena)
    requires b == Reserve(a, id, size, codec, checksum, mode, now, token, order).arena
    requires 0 <= size <= U64_MAX - 7 && token !in a.issued
    ensures ArenaInv(a) ==> ArenaInv(b)
  {
    ReleaseAllKeeps(a, order);
    ReleaseAllRest(a, order);
    ReserveInKeeps(ReleaseAll(a, order), id, size, codec, checksum, mode, now, token, b);
  }

  // ---------------------------------------------------------------- writes and commits

  /** Rewriting an entry in its place disturbs nothing else. */
  lemma RewriteKeeps(a: Arena, id: ObjectId, e: Entry, mem: Bytes, b: Arena)
    requires id in a.live && e.offset == a.live[id].offset && e.slot == a.live[id].slot
    requires e.reservation == a.live[id].reservation && |mem| == |a.mem|
    requires ArenaInv(a) ==> EntryOk(e, a.issued)
    requires b == a.(live := a.live[id := e], mem := mem)
    ensures ArenaInv(a) ==> ArenaInv(b)
  {
    if ArenaInv(a) {
      RewritePlaces(a, id, e, b.live);
      assert forall s :: LiveAt(b.live, s) == LiveAt(a.live, s);
      assert Counted(b);
      assert EntriesOk(b);
    }
  }

  lemma RewritePlaces(a: Arena, id: ObjectId, e: Entry, live: map<ObjectId, Entry>)
    requires id in a.live && e.offset == a.live[id].offset && e.slot == a.live[id].slot && live == a.live[id := e]
    ensures LiveOffsets(live) == LiveOffsets(a.live)
    ensures LivePlaced(a.live, a.cuts) ==> LivePlaced(live, a.cuts)
  {
    forall o | o in LiveOffsets(a.live) ensures o in LiveOffsets(live) {
      var j :| j in a.live && a.live[j].offset == o;
      assert j in live && live[j].offset == o;
    }
  }

  lemma CommitKeeps(a: Arena, id: ObjectId, token: RequestId, b: Arena)
    requires b == Commit(a, id, token).arena
    ensures ArenaInv(a) ==> ArenaInv(b)
  {
    if b != a {
      RewriteKeeps(a, id, b.live[id], a.mem, b);
    }
  }

  lemma WriteAtKeeps(a: Arena, offset: int, bytes: Bytes)
    ensures ArenaInv(a) ==> ArenaInv(WriteAt(a, offset, bytes))
  {
  }

  lemma WriteChunkKeeps(a: Arena, id: ObjectId, token: RequestId, rel: int, bytes: Bytes, now: int, b: Arena)
    requires b == WriteChunk(a, id, token, rel, bytes, now).arena && 0 <= rel
    ensures ArenaInv(a) ==> ArenaInv(b)
  {
    var v := ChunkVerdict(a, id, token, rel, bytes);
    if v == Ok(true) {
      RewriteKeeps(a, id, b.live[id], b.mem, b);
    }
  }

  lemma PutKeeps(a: Arena, id: ObjectId, bytes: Bytes, codec: Codec, checksum: Digest, now: int, token: RequestId,
                 order: seq<ObjectId>, b: Arena)
    requires b == Put(a, id, bytes, codec, checksum, now, token, order).0
    requires |bytes| <= U64_MAX - 7 && token !in a.issued
    ensures ArenaInv(a) ==> ArenaInv(b)
  {
    var r := Reserve(a, id, |bytes|, codec, checksum, Direct, now, token, order);
    ReserveKeeps(a, id, |bytes|, codec, checksum, Direct, now, token, order, r.arena);
    if r.reply.Ok? && !r.reply.value.committed {
      var written := WriteAt(r.arena, r.reply.value.offset, bytes);
      WriteAtKeeps(r.arena, r.reply.value.offset, bytes);
      CommitKeeps(written, id, r.reply.value.reservation, b);
    }
  }
}
