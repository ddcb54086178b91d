/** The `GetBatch` reply: one slot per requested object, kept within one frame. */
module Batches {
  import opened Types
  import opened Model
  import opened Runs
  import opened Invariants
  import Causes

  // ---------------------------------------------------------------- encoded sizes

  /** bincode with fixed-width integers: 4-byte variant tags, 8-byte lengths, one byte for an option. */
  const EMPTY_BATCH_BYTES: nat := 4 + 4 + 8

  const OVERFLOW: Error := CapacityExceeded("get batch response too large")

  /** Errors carry a message or an object id; errors that name anything else never occur in a batch. */
  function ErrorSize(e: Error): nat
  {
    4 + if e.Protocol? || e.CapacityExceeded? then 8 + |e.message| else 32
  }

  function PayloadSize(p: ObjectPayload): nat
  {
    32 + 4 + 8 + 32 + (8 + |p.location.text|) + (1 + if p.bytes.Some? then 8 + |p.bytes.value| else 0) + 1
  }

  function SlotSize(r: Result<ObjectPayload>): nat
  {
    4 + if r.Ok? then PayloadSize(r.value) else ErrorSize(r.error)
  }

  function Total(results: seq<Result<ObjectPayload>>): nat
  {
    if results == [] then 0 else Total(results[..|results| - 1]) + SlotSize(results[|results| - 1])
  }

  /** The encoded size of a batch reply. */
  function BatchSize(results: seq<Result<ObjectPayload>>): nat
  {
    EMPTY_BATCH_BYTES + Total(results)
  }

  const OVERFLOW_BYTES: nat := SlotSize(Err(OVERFLOW))

  lemma ErrorsAreSmall(s: State, id: ObjectId)
    ensures OVERFLOW_BYTES == 44
    ensures Resolve(s, id).Err? ==> SlotSize(Resolve(s, id)) < OVERFLOW_BYTES
  {
  }

  // ---------------------------------------------------------------- the reply

  /** What slot `i` holds: the object itself if it and room for the remaining slots still fit, else an overflow note. */
  ghost predicate SlotIs(s: State, ids: seq<ObjectId>, results: seq<Result<ObjectPayload>>, i: nat)
    requires i < |ids| && i < |results|
  {
    var resolved := Resolve(s, ids[i]);
    results[i] ==
      if BatchSize(results[..i]) + SlotSize(resolved) + (|ids| - i - 1) * 44 <= 8_388_608
      then resolved else Err(OVERFLOW)
  }

  predicate Pending(r: Result<ObjectPayload>)
  {
    r.Err? && r.error.ObjectPending?
  }

  function ReadyCount(results: seq<Result<ObjectPayload>>): nat
  {
    if results == [] then 0
    else ReadyCount(results[..|results| - 1]) + if Pending(results[|results| - 1]) then 0 else 1
  }

  function Resolved(s: State, ids: seq<ObjectId>): seq<Result<ObjectPayload>>
  {
    seq(|ids|, i requires 0 <= i < |ids| => Resolve(s, ids[i]))
  }

  /** Fills the reply slot by slot, never letting it outgrow one frame. */
  method GetBatch(s: State, ids: seq<ObjectId>) returns (r: Result<seq<Result<ObjectPayload>>>)
    requires |ids| <= U64_MAX
    ensures r.Err? <==> 16 + |ids| * 44 > 8_388_608
    ensures r.Err? ==> r.error == OVERFLOW
    ensures r.Ok? ==> |r.value| == |ids| && BatchSize(r.value) <= 8_388_608
    ensures r.Ok? ==> forall i :: 0 <= i < |ids| ==> SlotIs(s, ids, r.value, i)
  {
    ErrorsAreSmall(s, 0);
    if SatAdd(EMPTY_BATCH_BYTES, Min(OVERFLOW_BYTES * |ids|, U64_MAX)) > MAX_FRAME_BYTES {
      return Err(OVERFLOW);
    }
    var used := EMPTY_BATCH_BYTES;
    var results: seq<Result<ObjectPayload>> := [];
    for index := 0 to |ids|
      invariant |results| == index && used == BatchSize(results)
      invariant used + (|ids| - index) * OVERFLOW_BYTES <= MAX_FRAME_BYTES
      invariant forall i :: 0 <= i < index ==> SlotIs(s, ids, results, i)
    {
      var resolved := Resolve(s, ids[index]);
      var size := SlotSize(resolved);
      var remaining := |ids| - index - 1;
      ghost var before := results;
      if SatAdd(SatAdd(used, size), Min(remaining * OVERFLOW_BYTES, U64_MAX)) <= MAX_FRAME_BYTES {
        used := used + size;
        results := results + [resolved];
      } else {
        used := used + OVERFLOW_BYTES;
        results := results + [Err(OVERFLOW)];
      }
      assert results[..index] == before;
      forall i | 0 <= i < index ensures SlotIs(s, ids, results, i) {
        assert SlotIs(s, ids, before, i);
        assert results[..i] == before[..i];
      }
    }
    r := Ok(results);
  }

  lemma {:induction false} RoomLeft(s: State, ids: seq<ObjectId>, results: seq<Result<ObjectPayload>>, k: nat)
    requires |results| == |ids| && k <= |ids| && 16 + |ids| * 44 <= 8_388_608
    requires forall i :: 0 <= i < |ids| ==> SlotIs(s, ids, results, i)
    ensures BatchSize(results[..k]) + (|ids| - k) * 44 <= 8_388_608
    decreases k
  {
    if k > 0 {
      RoomLeft(s, ids, results, k - 1);
      assert SlotIs(s, ids, results, k - 1);
      assert results[..k][..k - 1] == results[..k - 1];
    }
  }

  /** Only a payload is ever replaced: whether an object is pending, lost or gone is always told. */
  lemma OnlyPayloadsReplaced(s: State, ids: seq<ObjectId>, results: seq<Result<ObjectPayload>>, i: nat)
    requires |results| == |ids| && i < |ids| && 16 + |ids| * 44 <= 8_388_608
    requires forall i :: 0 <= i < |ids| ==> SlotIs(s, ids, results, i)
    ensures results[i] == Resolve(s, ids[i]) || (Resolve(s, ids[i]).Ok? && results[i] == Err(OVERFLOW))
    ensures Pending(results[i]) <==> Pending(Resolve(s, ids[i]))
  {
    RoomLeft(s, ids, results, i);
    ErrorsAreSmall(s, ids[i]);
    assert SlotIs(s, ids, results, i);
  }

  lemma {:induction false} CountsAgree(a: seq<Result<ObjectPayload>>, b: seq<Result<ObjectPayload>>)
    requires |a| == |b| && forall i :: 0 <= i < |a| ==> (Pending(a[i]) <==> Pending(b[i]))
    ensures ReadyCount(a) == ReadyCount(b)
    decreases |a|
  {
    if a != [] {
      CountsAgree(a[..|a| - 1], b[..|b| - 1]);
    }
  }

  /** So the number of ready slots is the number of objects that are not pending. */
  lemma ReadyCountIsExact(s: State, ids: seq<ObjectId>, results: seq<Result<ObjectPayload>>)
    requires |results| == |ids| && 16 + |ids| * 44 <= 8_388_608
    requires forall i :: 0 <= i < |ids| ==> SlotIs(s, ids, results, i)
    ensures ReadyCount(results) == ReadyCount(Resolved(s, ids))
  {
    forall i: nat | i < |ids| ensures Pending(results[i]) <==> Pending(Resolved(s, ids)[i]) {
      OnlyPayloadsReplaced(s, ids, results, i);
    }
    CountsAgree(results, Resolved(s, ids));
  }

  /** An unfinished task is to produce the object. */
  predicate StillToCome(s: State, id: ObjectId)
  {
    exists t :: t in s.tasks && s.tasks[t].output == id
      && !s.tasks[t].state.Succeeded? && !s.tasks[t].state.Failed? && !s.tasks[t].state.Cancelled?
  }

  lemma {:induction false} ReadyCountIs(r: seq<Result<ObjectPayload>>)
    ensures ReadyCount(r) == |set i | 0 <= i < |r| && !Pending(r[i])|
    decreases |r|
  {
    var ready := set i | 0 <= i < |r| && !Pending(r[i]);
    if r != [] {
      var init := r[..|r| - 1];
      ReadyCountIs(init);
      var before := set i | 0 <= i < |init| && !Pending(init[i]);
      assert ready == if Pending(r[|r| - 1]) then before else before + {|r| - 1};
    }
  }

  /** In a sound state, that is the number of requested objects that no unfinished task is still to produce. */
  lemma ReadyMeansProduced(s: State, ids: seq<ObjectId>, results: seq<Result<ObjectPayload>>)
    requires Inv(s) && |results| == |ids| && 16 + |ids| * 44 <= 8_388_608
    requires forall i :: 0 <= i < |ids| ==> SlotIs(s, ids, results, i)
    ensures ReadyCount(results) == |set i | 0 <= i < |ids| && !StillToCome(s, ids[i])|
  {
    hide Inv, Resolve;
    ReadyCountIs(results);
    forall i: nat | i < |ids| ensures Pending(results[i]) <==> StillToCome(s, ids[i]) {
      OnlyPayloadsReplaced(s, ids, results, i);
      Causes.ResolveMeans(s, ids[i]);
      PendingNamesItself(s, ids[i]);
    }
    assert (set i | 0 <= i < |results| && !Pending(results[i])) == set i | 0 <= i < |ids| && !StillToCome(s, ids[i]);
  }

  lemma PendingNamesItself(s: State, id: ObjectId)
    ensures Pending(Resolve(s, id)) ==> Resolve(s, id) == Err(ObjectPending(id))
  {
  }

  /** At every slot, the objects so far and an overflow note for each one still to come fit one frame. */
  ghost predicate FitsWithReserve(s: State, ids: seq<ObjectId>)
  {
    forall k :: 0 <= k < |ids| ==> ReserveFits(s, ids, k)
  }

  ghost predicate ReserveFits(s: State, ids: seq<ObjectId>, k: nat)
    requires k < |ids|
  {
    BatchSize(Resolved(s, ids)[..k + 1]) + (|ids| - k - 1) * 44 <= 8_388_608
  }

  lemma {:induction false} CompleteSoFar(s: State, ids: seq<ObjectId>, results: seq<Result<ObjectPayload>>, k: nat)
    requires |results| == |ids| && k <= |ids| && FitsWithReserve(s, ids)
    requires forall i :: 0 <= i < |ids| ==> SlotIs(s, ids, results, i)
    ensures results[..k] == Resolved(s, ids)[..k]
    decreases k
  {
    if k > 0 {
      CompleteSoFar(s, ids, results, k - 1);
      assert SlotIs(s, ids, results, k - 1) && ReserveFits(s, ids, k - 1);
      assert Resolved(s, ids)[..k][..k - 1] == Resolved(s, ids)[..k - 1];
    }
  }

  /** The reply holds every object exactly when the batch fits with that reserve; fitting one frame is not enough. */
  lemma CompleteIffReserveFits(s: State, ids: seq<ObjectId>, results: seq<Result<ObjectPayload>>)
    requires |results| == |ids|
    requires forall i :: 0 <= i < |ids| ==> SlotIs(s, ids, results, i)
    ensures results == Resolved(s, ids) <==> FitsWithReserve(s, ids)
  {
    if FitsWithReserve(s, ids) {
      CompleteSoFar(s, ids, results, |ids|);
      assert results[..|ids|] == results && Resolved(s, ids)[..|ids|] == Resolved(s, ids);
    }
    if results == Resolved(s, ids) {
      forall k: nat | k < |ids| ensures ReserveFits(s, ids, k) {
        assert SlotIs(s, ids, results, k);
        assert results[..k + 1][..k] == results[..k];
      }
    }
  }

  lemma TotalOfThree(r: seq<Result<ObjectPayload>>)
    requires |r| == 3
    ensures Total(r[..0]) == 0 && Total(r[..1]) == SlotSize(r[0])
    ensures Total(r) == SlotSize(r[0]) + SlotSize(r[1]) + SlotSize(r[2])
  {
    assert r[..1][..0] == [] && r[..2][..1] == r[..1];
    assert Total(r[..2]) == Total(r[..1]) + SlotSize(r[1]);
  }

  /** Two payloads and an object that cannot be served, which together fill a frame exactly: the third slot is
      smaller than the note reserved for it, so the second payload is replaced all the same. */
  lemma TightBatchIsCut(s: State, ids: seq<ObjectId>, results: seq<Result<ObjectPayload>>)
    requires |ids| == 3 && |results| == 3
    requires Resolve(s, ids[0]).Ok? && Resolve(s, ids[1]).Ok? && Resolve(s, ids[2]).Err?
    requires BatchSize(Resolved(s, ids)) == 8_388_608
    requires forall i :: 0 <= i < |ids| ==> SlotIs(s, ids, results, i)
    ensures results[1] == Err(OVERFLOW) && results != Resolved(s, ids)
  {
    TotalOfThree(Resolved(s, ids));
    TotalOfThree(results);
    ErrorsAreSmall(s, ids[2]);
    assert SlotIs(s, ids, results, 0);
    assert results[0] == Resolve(s, ids[0]);
    assert SlotIs(s, ids, results, 1);
  }

  lemma PutStep(s: State, h: Bytes -> Digest, codec: Codec, bytes: Bytes, s': State)
    requires h(bytes) !in s.objects && |s.objects| < MAX_OBJECTS && s' == Next(s, h, DoPut(codec, bytes))
    ensures h(bytes) in s'.objects && s'.objects == s.objects[h(bytes) := s'.objects[h(bytes)]]
    ensures Resolve(s', h(bytes)) ==
      Ok(ObjectPayload(h(bytes), codec, |bytes|, h(bytes), COORDINATOR, Some(bytes)))
  {
  }

  /** A run reaches such a batch: two inline puts, then a request for both objects and an unknown one. */
  lemma TightBatchReached(h: Bytes -> Digest, small: Bytes, large: Bytes, unknown: ObjectId)
    returns (states: seq<State>, actions: seq<Action>, ids: seq<ObjectId>)
    requires |small| == 65_268 && |large| == 8_323_072
    requires h(small) != h(large) && unknown != h(small) && unknown != h(large)
    ensures IsRun(h, states, actions) && |ids| == 3
    ensures var s := states[|actions|];
      && Resolve(s, ids[0]).Ok? && Resolve(s, ids[1]).Ok? && Resolve(s, ids[2]).Err?
      && BatchSize(Resolved(s, ids)) == 8_388_608
  {
    actions := [DoPut(RawBytes, small), DoPut(RawBytes, large)];
    var s0 := Init(0);
    var s1 := Next(s0, h, actions[0]);
    PutStep(s0, h, RawBytes, small, s1);
    var s2 := Next(s1, h, actions[1]);
    PutStep(s1, h, RawBytes, large, s2);
    states := [s0, s1, s2];
    assert StepAt(h, states, actions, 0) && StepAt(h, states, actions, 1);
    ids := [h(small), h(large), unknown];
    var all := Resolved(s2, ids);
    assert all[0] == Resolve(s1, h(small));
    TotalOfThree(all);
    assert |COORDINATOR.text| == 11;
    assert SlotSize(all[0]) == 109 + |small| && SlotSize(all[1]) == 109 + |large| && SlotSize(all[2]) == 34;
  }

  /** Whether a waiting batch request may be answered: enough slots are no longer pending. */
  method BatchReady(reply: Result<seq<Result<ObjectPayload>>>, minReady: nat) returns (ready: bool)
    ensures ready <==> reply.Err? || ReadyCount(reply.value) >= minReady
  {
    if reply.Err? {
      return true;
    }
    var count := 0;
    for k := 0 to |reply.value|
      invariant count == ReadyCount(reply.value[..k])
    {
      assert reply.value[..k + 1][..k] == reply.value[..k];
      if !Pending(reply.value[k]) {
        count := count + 1;
      }
    }
    assert reply.value[..|reply.value|] == reply.value;
    return count >= minReady;
  }
}
