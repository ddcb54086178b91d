/** The arena as the object it is: allocator fields and a byte mapping updated in place, each method proved
    against the arena transition it implements. */
module ArenaStorage {
  import opened Types
  import opened Sums
  import opened ArenaModel
  import opened Allocation
  import opened ArenaSteps
  import opened ArenaRuns
  import opened Oversize

  class ArenaStore {
    const mapping: array<Byte>
    var top: int
    var free: map<int, seq<int>>
    var live: map<ObjectId, Entry>
    ghost var cuts: map<int, int>
    ghost var issued: set<RequestId>

    /** The allocator and the mapped bytes as one value. */
    ghost function View(): Arena
      reads this, mapping
    {
      Arena(top, free, live, mapping[..], cuts, issued)
    }

    ghost predicate Valid()
      reads this, mapping
    {
      ArenaInv(View())
    }

    constructor ()
      ensures Valid() && fresh(mapping) && View() == Fresh(mapping[..])
    {
      mapping := new Byte[ARENA_BYTES](_ => 0);
      top := 0;
      free := map[];
      live := map[];
      cuts := map[];
      issued := {};
      new;
      FreshInv(mapping[..]);
    }

    // ------------------------------------------------------------ allocation

    method Recycle(id: ObjectId)
      modifies this`live, this`free
      ensures View() == ArenaModel.Release(old(View()), id)
    {
      if id in live {
        var e := live[id];
        live := live - {id};
        free := free[e.slot := (if e.slot in free then free[e.slot] else []) + [e.offset]];
      }
    }

    method Release(id: ObjectId)
      requires Valid()
      modifies this`live, this`free
      ensures Valid()
      ensures View() == ArenaModel.Release(old(View()), id)
    {
      ghost var a := View();
      Recycle(id);
      ReleaseKeeps(a, id);
    }

    /** Returns abandoned reservations to their free lists, in whatever order the table lists them. */
    method Reap(now: int) returns (ghost order: seq<ObjectId>)
      modifies this`live, this`free
      ensures IsOrder(order, ExpiredIds(old(View()), now))
      ensures View() == ReleaseAll(old(View()), order)
    {
      var expired := set id | id in live && IsExpired(live[id], now);
      assert expired == ExpiredIds(View(), now);
      order := [];
      var todo := expired;
      while todo != {}
        invariant todo <= expired && IsOrder(order, expired - todo)
        invariant View() == ReleaseAll(old(View()), order)
      {
        ghost var some := Member(todo);
        var id :| id in todo;
        Recycle(id);
        OrderOneMore(order, expired, todo, id);
        assert (order + [id])[..|order|] == order;
        order, todo := order + [id], todo - {id};
      }
      assert expired - todo == expired;
    }

    method Take(slot: int) returns (offset: Option<int>)
      modifies this`free, this`top, this`cuts
      ensures match Allocate(old(View()), slot)
        case None => offset.None? && View() == old(View())
        case Some((b, o)) => offset == Some(o) && View() == b
    {
      if slot in free && free[slot] != [] {
        var list := free[slot];
        offset := Some(list[|list| - 1]);
        free := free[slot := list[..|list| - 1]];
      } else {
        if top + slot > ARENA_BYTES {
          return None;
        }
        offset := Some(top);
        cuts := cuts[top := slot];
        top := top + slot;
      }
    }

    method Reserve(id: ObjectId, size: int, codec: Codec, checksum: Digest, mode: WriteMode, now: int, token: RequestId)
      returns (reply: Result<Reservation>, ghost order: seq<ObjectId>)
      requires Valid() && 0 <= size <= U64_MAX && token !in issued
      modifies this
      ensures Valid() <==> size <= U64_MAX - 7 || Kept(old(View()), id, now)
      ensures IsOrder(order, ExpiredIds(old(View()), now))
      ensures Outcome(View(), reply) ==
        ArenaModel.Reserve(old(View()), id, size, codec, checksum, mode, now, token, order)
    {
      ghost var a := View();
      hide ArenaInv, SlotFor, ReleaseAll;
      var slot := SlotFor(size);
      order := Reap(now);
      if id in live {
        var e := live[id];
        if e.size != size || e.codec != codec || e.checksum != checksum || e.mode != mode {
          reply := Err(ObjectConflict(id));
        } else {
          reply := Ok(Reservation(e.offset, e.reservation, e.committed));
        }
      } else {
        var offset := Take(slot);
        if offset.None? {
          reply := Err(CapacityExceeded("arena exhausted"));
        } else {
          live := live[id := Entry(offset.value, size, slot, codec, checksum, token, mode, 0, false, Some(now))];
          issued := issued + {token};
          reply := Ok(Reservation(offset.value, token, false));
        }
      }
      ReserveSoundIff(a, id, size, codec, checksum, mode, now, token, order, Outcome(View(), reply));
    }

    // ------------------------------------------------------------ commit and rollback

    method Commit(id: ObjectId, token: RequestId) returns (reply: Result<Meta>)
      requires Valid()
      modifies this`live
      ensures Valid()
      ensures Outcome(View(), reply) == ArenaModel.Commit(old(View()), id, token)
    {
      ghost var a := View();
      if id !in live {
        return Err(ObjectNotFound(id));
      }
      var e := live[id];
      if e.reservation != token {
        return Err(StaleFence);
      }
      if e.mode.Streamed? && e.writtenUntil != e.size {
        return Err(Protocol("arena object incomplete"));
      }
      live := live[id := e.(committed := true, reservedAt := None)];
      reply := Ok(Meta(e.offset, e.size, e.codec, e.checksum));
      CommitKeeps(a, id, token, View());
    }

    method Rollback(id: ObjectId, token: RequestId) returns (reply: Result<()>)
      requires Valid()
      modifies this`live, this`free
      ensures Valid()
      ensures Outcome(View(), reply) == ArenaModel.Rollback(old(View()), id, token)
    {
      ghost var a := View();
      if id !in live {
        return Err(ObjectNotFound(id));
      }
      if live[id].reservation != token || !live[id].committed {
        return Err(StaleFence);
      }
      Recycle(id);
      ReleaseKeeps(a, id);
      reply := Ok(());
    }

    // ------------------------------------------------------------ bytes

    /** Copies `bytes` into the mapping. */
    method WriteAt(offset: int, bytes: Bytes)
      requires 0 <= offset && offset + |bytes| <= mapping.Length
      modifies mapping
      ensures mapping[..] == Splice(old(mapping[..]), offset, bytes)
    {
      for k := 0 to |bytes|
        invariant mapping[..] == Splice(old(mapping[..]), offset, bytes[..k])
      {
        mapping[offset + k] := bytes[k];
      }
      assert bytes[..|bytes|] == bytes;
    }

    /** Whether the mapping already holds `bytes` from `offset` on. */
    method Matches(offset: int, bytes: Bytes) returns (same: bool)
      requires 0 <= offset && offset + |bytes| <= mapping.Length
      ensures same <==> mapping[offset..offset + |bytes|] == bytes
    {
      for k := 0 to |bytes|
        invariant mapping[offset..offset + k] == bytes[..k]
      {
        if mapping[offset + k] != bytes[k] {
          assert mapping[offset..offset + |bytes|][k] != bytes[k];
          return false;
        }
      }
      return true;
    }

    /** Appends to the written prefix of a reserved object. */
    method Extend(id: ObjectId, rel: int, bytes: Bytes, now: int)
      requires id in live && 0 <= live[id].offset + rel && live[id].offset + rel + |bytes| <= mapping.Length
      modifies this`live, mapping
      ensures View() == ArenaModel.WriteAt(old(View()), old(live)[id].offset + rel, bytes).(
        live := old(live)[id := old(live)[id].(writtenUntil := rel + |bytes|, reservedAt := Some(now))])
    {
      WriteAt(live[id].offset + rel, bytes);
      live := live[id := live[id].(writtenUntil := rel + |bytes|, reservedAt := Some(now))];
    }

    method WriteChunk(id: ObjectId, token: RequestId, rel: int, bytes: Bytes, now: int) returns (reply: Result<()>)
      requires Valid() && 0 <= rel
      modifies this`live, mapping
      ensures Valid()
      ensures Outcome(View(), reply) == ArenaModel.WriteChunk(old(View()), id, token, rel, bytes, now)
    {
      hide ArenaInv;
      ghost var a := View();
      if id !in live {
        return Err(ObjectNotFound(id));
      }
      var e := live[id];
      if e.reservation != token || e.committed {
        return Err(StaleFence);
      }
      if !e.mode.Streamed? {
        return Err(Protocol("arena reservation is not streamed"));
      }
      if rel + |bytes| > U64_MAX || rel + |bytes| > e.size {
        return Err(Protocol("put chunk out of bounds"));
      }
      ObjectInSlot(a, id);
      if rel == e.writtenUntil {
        Extend(id, rel, bytes, now);
        WriteChunkKeeps(a, id, token, rel, bytes, now, View());
        return Ok(());
      }
      if rel + |bytes| <= e.writtenUntil {
        var same := Matches(e.offset + rel, bytes);
        return if same then Ok(()) else Err(ObjectConflict(id));
      }
      return Err(Protocol("put chunk must be contiguous"));
    }

    method Put(id: ObjectId, bytes: Bytes, codec: Codec, checksum: Digest, now: int, token: RequestId)
      returns (offset: Option<int>, ghost order: seq<ObjectId>)
      requires Valid() && |bytes| <= U64_MAX - 7 && token !in issued
      modifies this, mapping
      ensures Valid() && IsOrder(order, ExpiredIds(old(View()), now))
      ensures (View(), offset) == ArenaModel.Put(old(View()), id, bytes, codec, checksum, now, token, order)
    {
      ghost var a := View();
      var r;
      r, order := Reserve(id, |bytes|, codec, checksum, Direct, now, token);
      if r.Err? {
        return None, order;
      }
      if !r.value.committed {
        ReserveGives(a, id, |bytes|, codec, checksum, Direct, now, token, order, Outcome(View(), r));
        ObjectInSlot(View(), id);
        WriteAtKeeps(View(), r.value.offset, bytes);
        WriteAt(r.value.offset, bytes);
        var c := Commit(id, r.value.reservation);
        if c.Err? {
          return None, order;
        }
      }
      offset := Some(r.value.offset);
    }

    method Read(id: ObjectId) returns (bytes: Option<Bytes>)
      requires Valid()
      ensures bytes == ArenaModel.Read(View(), id)
    {
      if id !in live || !live[id].committed {
        return None;
      }
      ObjectInSlot(View(), id);
      var e := live[id];
      return Some(mapping[e.offset..e.offset + e.size]);
    }

    method ReadChunk(id: ObjectId, rel: int, len: int) returns (bytes: Option<Bytes>)
      requires Valid() && 0 <= rel && 0 <= len
      ensures bytes == ArenaModel.ReadChunk(View(), id, rel, len)
    {
      if id !in live || !live[id].committed {
        return None;
      }
      var e := live[id];
      if rel + len > U64_MAX || rel + len > e.size {
        return None;
      }
      ObjectInSlot(View(), id);
      return Some(mapping[e.offset + rel..e.offset + rel + len]);
    }
  }
}
