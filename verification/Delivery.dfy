/** What a reader gets through the handlers: the bytes that were put, or that were in the slot when it was committed,
    and nothing once the object is released. */
module Delivery {
  import opened Types
  import opened Model
  import opened Invariants
  import A = ArenaModel
  import opened Allocation
  import ArenaSteps
  import ArenaRuns
  import Chunks
  import Reservations
  import opened Agreement
  import opened Leaks

  /** The bytes a reader on the same host ends up with: those at the offset it is offered, or those it is sent. */
  function Delivered(c: Cluster, id: ObjectId): Option<Bytes>
  {
    match GetReply(c, id)
    case Err(_) => None
    case Ok(offer) =>
      if offer.offset.Some? then Some(A.Slice(c.arena.mem, offer.offset.value, offer.payload.size))
      else offer.payload.bytes
  }

  /** A put is granted exactly when its bytes fit a frame and the table has room, or holds the same object already. */
  lemma PutGrantedIff(c: Cluster, h: Bytes -> Digest, codec: Codec, bytes: Bytes)
    ensures var s := c.state;
      PutReply(c, h, codec, bytes).Ok? <==>
        && |bytes| <= 8_323_072
        && if h(bytes) in s.objects then
             var o := s.objects[h(bytes)];
             o.state == Available && o.codec == Some(codec) && o.size == Some(|bytes|) && o.checksum == Some(h(bytes))
           else |s.objects| < 65_536
    ensures PutReply(c, h, codec, bytes).Ok? ==>
      PutReply(c, h, codec, bytes).value
      == ObjectPayload(h(bytes), codec, |bytes|, h(bytes), Name("coordinator"), None)
  {
  }

  lemma PutLeavesCommitted(a: A.Arena, id: ObjectId, bytes: Bytes, codec: Codec, checksum: Digest, now: int,
                           token: RequestId, order: seq<ObjectId>)
    requires ArenaInv(a) && CommittedIn(a, id) && |bytes| <= U64_MAX - 7 && IsOrder(order, A.ExpiredIds(a, now))
    ensures var b := A.Put(a, id, bytes, codec, checksum, now, token, order).0;
      id in b.live && b.live[id] == a.live[id] && b.mem == a.mem
  {
    hide ArenaInv, A.Reserve;
    Chunks.CommittedIsKept(a, id, now);
    SlotHolds(|bytes|);
    Reservations.ReserveEffect(a, id, |bytes|, codec, checksum, A.Direct, now, token, order, A.SlotFor(|bytes|), id);
  }

  /** A newly put object is delivered as it was put, unless its id was committed in the arena before, without a
      record and with other bytes. */
  lemma InlineRoundTripIff(c: Cluster, h: Bytes -> Digest, codec: Codec, bytes: Bytes, now: int, token: RequestId,
                           order: seq<ObjectId>, c': Cluster)
    requires ClusterInv(c) && LegalEvent(c, h, PutInlineObject(codec, bytes, now, token, order))
    requires c' == PutEvent(c, h, codec, bytes, now, token, order)
    requires PutReply(c, h, codec, bytes).Ok? && h(bytes) !in c.state.objects
    ensures Delivered(c', h(bytes)) == Some(bytes) <==>
      (CommittedIn(c.arena, h(bytes)) ==>
         A.Slice(c.arena.mem, c.arena.live[h(bytes)].offset, |bytes|) == bytes)
  {
    hide Inv, ArenaInv, A.Put, Agree;
    var id := h(bytes);
    assert Resolve(c'.state, id)
           == Ok(ObjectPayload(id, codec, |bytes|, id, Name("coordinator"), Some(bytes)));
    Chunks.PutReadsBack(c.arena, id, bytes, codec, h(bytes), now, token, order);
    if CommittedIn(c.arena, id) {
      PutLeavesCommitted(c.arena, id, bytes, codec, h(bytes), now, token, order);
    }
  }

  /** So in any run without such a leftover, what a client puts for the first time is what a reader gets. */
  lemma InlineRoundTrip(h: Bytes -> Digest, clusters: seq<Cluster>, events: seq<Event>, k: nat)
    requires IsRun(h, clusters, events) && k < |events| && NoLeak(clusters[k])
    requires events[k].PutInlineObject? && h(events[k].bytes) !in clusters[k].state.objects
    requires PutReply(clusters[k], h, events[k].codec, events[k].bytes).Ok?
    ensures Delivered(clusters[k + 1], h(events[k].bytes)) == Some(events[k].bytes)
  {
    RunAgrees(h, clusters, events, k);
    assert StepAt(h, clusters, events, k);
    hide ClusterInv, LegalEvent, PutEvent, PutReply, Delivered;
    var e := events[k];
    InlineRoundTripIff(clusters[k], h, e.codec, e.bytes, e.now, e.token, e.order, clusters[k + 1]);
    assert CommittedIn(clusters[k].arena, h(e.bytes)) ==> Recorded(clusters[k].state, clusters[k].arena, h(e.bytes));
  }

  /** A granted commit delivers exactly what was in the slot, under the codec, size and checksum it was reserved for. */
  lemma CommitDelivers(c: Cluster, id: ObjectId, token: RequestId, c': Cluster)
    requires ArenaInv(c.arena) && c' == CommitEvent(c, id, token) && CommitReply(c, id, token).Ok?
    ensures id in c.arena.live && c.arena.live[id].reservation == token
    ensures Delivered(c', id) == Some(A.Contents(c.arena, id))
    ensures var p := CommitReply(c, id, token).value.payload;
      p.id == id && p.codec == c.arena.live[id].codec && p.size == c.arena.live[id].size
      && p.checksum == c.arena.live[id].checksum
    ensures CommitReply(c, id, token).value.offset == Some(c.arena.live[id].offset)
  {
    hide ArenaInv;
  }

  /** The reservation handler offers content that resolves already. Otherwise a grant names the place and the token
      under which the arena has just reserved exactly what was asked for, and a refusal leaves no reservation new. */
  lemma GrantedIsReserved(c: Cluster, id: ObjectId, codec: Codec, size: int, checksum: Digest, mode: A.WriteMode,
                          now: int, token: RequestId, order: seq<ObjectId>, c': Cluster)
    requires c' == ReserveEvent(c, id, codec, size, checksum, mode, now, token, order)
    ensures var reply := ReserveReply(c, id, codec, size, checksum, mode, now, token, order);
      && (reply.Ok? && reply.value.StoredAlready? <==> Resolve(c.state, id).Ok?)
      && (Resolve(c.state, id).Ok? ==> c' == c && GetReply(c, id) == Ok(reply.value.offer))
      && (reply.Ok? && reply.value.Granted? ==>
            && reply.value.id == id && id in c'.arena.live
            && var e := c'.arena.live[id];
               && e.offset == reply.value.offset && e.reservation == reply.value.token
               && e.size == size && e.codec == codec && e.checksum == checksum && e.mode == mode)
  {
    hide A.Reserve;
    var r := A.Reserve(c.arena, id, size, codec, checksum, mode, now, token, order);
    if r.reply.Ok? {
      ArenaRuns.ReserveGives(c.arena, id, size, codec, checksum, mode, now, token, order, r);
    }
  }

  /** Direct transfer: reserve, write the bytes at the granted place, commit under the granted token; then exactly
      those bytes are delivered. */
  lemma DirectRoundTrip(c: Cluster, id: ObjectId, codec: Codec, bytes: Bytes, checksum: Digest, now: int,
                        token: RequestId, order: seq<ObjectId>, offset: int, given: RequestId, c': Cluster)
    requires ClusterInv(c) && |bytes| <= U64_MAX - 7 && token !in c.arena.issued
    requires ReserveReply(c, id, codec, |bytes|, checksum, A.Direct, now, token, order)
             == Ok(Granted(id, offset, given))
    requires var reserved := ReserveEvent(c, id, codec, |bytes|, checksum, A.Direct, now, token, order);
      var written := Cluster(reserved.state, A.WriteAt(reserved.arena, offset, bytes));
      CommitReply(written, id, given).Ok? && c' == CommitEvent(written, id, given)
    ensures Delivered(c', id) == Some(bytes)
  {
    hide Inv, ArenaInv, Agree, A.Reserve, Delivered, CommitEvent, CommitReply;
    var reserved := ReserveEvent(c, id, codec, |bytes|, checksum, A.Direct, now, token, order);
    var written := Cluster(reserved.state, A.WriteAt(reserved.arena, offset, bytes));
    GrantedIsReserved(c, id, codec, |bytes|, checksum, A.Direct, now, token, order, reserved);
    ArenaSteps.ReserveKeeps(c.arena, id, |bytes|, codec, checksum, A.Direct, now, token, order, reserved.arena);
    ArenaSteps.WriteAtKeeps(reserved.arena, offset, bytes);
    ObjectInSlot(reserved.arena, id);
    ArenaRuns.SpliceReads(reserved.arena.mem, offset, offset, bytes);
    CommitDelivers(written, id, given, c');
  }

  /** A granted release leaves nothing to read and no slot. */
  lemma ReleasedIsGone(c: Cluster, id: ObjectId, c': Cluster)
    requires c' == ReleaseEvent(c, id) && ReleaseObject(c.state, id).reply.Ok?
    ensures GetReply(c', id).Err? && Delivered(c', id) == None && id !in c'.arena.live
  {
  }
}
