/** The exact high-water mark: the arena is as large as the peaks of its slot sizes require, and no larger. */
module HighWater {
  import opened Types
  import opened Sums
  import opened ArenaModel
  import opened Allocation
  import opened ArenaSteps
  import opened ArenaRuns

  /** How many live objects have a slot of that size. */
  function LiveCount(a: Arena, slot: int): nat
  {
    |LiveAt(a.live, slot)|
  }

  /** The most there have been at any moment up to state `k`. */
  function Peak(states: seq<Arena>, slot: int, k: nat): nat
    requires k < |states|
  {
    if k == 0 then LiveCount(states[0], slot)
    else Max(Peak(states, slot, k - 1), LiveCount(states[k], slot))
  }

  /** A step leaves the cuts alone, or cuts one slot whose free list is empty. */
  ghost predicate CutsStep(a: Arena, b: Arena)
  {
    || (b.cuts == a.cuts && b.top == a.top)
    || (exists s :: CutsOne(a, b, s))
  }

  ghost predicate CutsOne(a: Arena, b: Arena, s: int)
  {
    && a.top !in a.cuts && b.cuts == a.cuts[a.top := s] && b.top == a.top + s
    && FreeList(b.free, s) == []
  }

  lemma ReserveCuts(a: Arena, id: ObjectId, size: int, codec: Codec, checksum: Digest, mode: WriteMode, now: int,
                    token: RequestId, order: seq<ObjectId>, b: Arena)
    requires ArenaInv(a) && b == Reserve(a, id, size, codec, checksum, mode, now, token, order).arena
    ensures CutsStep(a, b)
  {
    ReleaseAllRest(a, order);
    var reaped := ReleaseAll(a, order);
    if b.cuts != a.cuts || b.top != a.top {
      assert FreeList(reaped.free, SlotFor(size)) == [];
      assert a.top !in a.cuts;
      assert CutsOne(a, b, SlotFor(size));
    }
  }

  lemma FillCuts(a: Arena, id: ObjectId, offset: int, bytes: Bytes, token: RequestId, b: Arena)
    requires b == Commit(WriteAt(a, offset, bytes), id, token).arena
    ensures b.cuts == a.cuts && b.top == a.top && b.free == a.free
  {
  }

  lemma PutCuts(a: Arena, id: ObjectId, bytes: Bytes, codec: Codec, checksum: Digest, now: int, token: RequestId,
                order: seq<ObjectId>, b: Arena)
    requires ArenaInv(a) && b == Put(a, id, bytes, codec, checksum, now, token, order).0
    ensures CutsStep(a, b)
  {
    var r := Reserve(a, id, |bytes|, codec, checksum, Direct, now, token, order);
    ReserveCuts(a, id, |bytes|, codec, checksum, Direct, now, token, order, r.arena);
    if r.reply.Ok? && !r.reply.value.committed {
      FillCuts(r.arena, id, r.reply.value.offset, bytes, r.reply.value.reservation, b);
      if s :| CutsOne(a, r.arena, s) {
        assert CutsOne(a, b, s);
      }
    }
  }

  lemma NextCuts(a: Arena, c: Call, b: Arena)
    requires ArenaInv(a) && b == Next(a, c)
    ensures CutsStep(a, b)
  {
    match c
    case DoReserve(id, size, codec, checksum, mode, now, token, order) =>
      ReserveCuts(a, id, size, codec, checksum, mode, now, token, order, b);
    case DoPut(id, bytes, codec, checksum, now, token, order) =>
      PutCuts(a, id, bytes, codec, checksum, now, token, order, b);
    case _ => {}
  }

  lemma CountIs(a: Arena, s: int)
    requires ArenaInv(a)
    ensures |CutsAt(a.cuts, s)| == LiveCount(a, s) + |FreeList(a.free, s)|
  {
  }

  /** As many slots of a size are ever cut as were live at once. */
  lemma {:induction false} CutsArePeaks(states: seq<Arena>, calls: seq<Call>, s: int, k: nat)
    requires IsRun(states, calls) && k < |states|
    ensures |CutsAt(states[k].cuts, s)| == Peak(states, s, k)
    decreases k
  {
    hide ArenaInv, Next, Legal;
    RunArenaInv(states, calls, k);
    CountIs(states[k], s);
    if k == 0 {
      assert CutsAt(states[0].cuts, s) == {} && LiveAt(states[0].live, s) == {};
    } else {
      var a, b := states[k - 1], states[k];
      CutsArePeaks(states, calls, s, k - 1);
      RunArenaInv(states, calls, k - 1);
      assert StepAt(states, calls, k - 1);
      NextCuts(a, calls[k - 1], b);
      if cut :| CutsOne(a, b, cut) {
        CutsGain(a.cuts, a.top, cut, s);
      }
    }
  }

  function Weight(cuts: map<int, int>): (f: int -> int)
    ensures forall s :: f(s) == s * |CutsAt(cuts, s)|
  {
    s => s * |CutsAt(cuts, s)|
  }

  /** Bumping one term of a sum. */
  lemma SumBump<T(!new)>(s: set<T>, f: T -> int, g: T -> int, x: T, d: int)
    requires x in s && g(x) == f(x) + d
    requires forall y :: y in s - {x} ==> g(y) == f(y)
    ensures Sum(s, g) == Sum(s, f) + d
  {
    SumRemove(s, f, x);
    SumRemove(s, g, x);
    SumSame(s - {x}, g, f);
  }

  lemma WeightGains(cuts: map<int, int>, o: int, slot: int, sizes: set<int>)
    requires o !in cuts && slot in sizes
    ensures Sum(sizes, Weight(cuts[o := slot])) == Sum(sizes, Weight(cuts)) + slot
  {
    forall s ensures |CutsAt(cuts[o := slot], s)| == |CutsAt(cuts, s)| + if s == slot then 1 else 0 {
      CutsGain(cuts, o, slot, s);
    }
    assert Weight(cuts[o := slot])(slot) == slot * (|CutsAt(cuts, slot)| + 1);
    SumBump(sizes, Weight(cuts), Weight(cuts[o := slot]), slot, slot);
  }

  lemma {:induction false} ZeroSum(sizes: set<int>, f: int -> int)
    requires forall s :: s in sizes ==> f(s) == 0
    ensures Sum(sizes, f) == 0
    decreases sizes
  {
    if sizes != {} {
      var x := Member(sizes);
      SumRemove(sizes, f, x);
      ZeroSum(sizes - {x}, f);
    }
  }

  /** `sizes` holds every slot size that has been cut. */
  lemma {:induction false} TopIsWeight(states: seq<Arena>, calls: seq<Call>, sizes: set<int>, k: nat)
    requires IsRun(states, calls) && k < |states|
    requires forall o :: o in states[k].cuts ==> states[k].cuts[o] in sizes
    ensures states[k].top == Sum(sizes, Weight(states[k].cuts))
    decreases k
  {
    if k == 0 {
      assert forall s :: CutsAt(states[0].cuts, s) == {};
      ZeroSum(sizes, Weight(states[0].cuts));
    } else {
      var a, b := states[k - 1], states[k];
      RunArenaInv(states, calls, k - 1);
      assert StepAt(states, calls, k - 1);
      NextCuts(a, calls[k - 1], b);
      if cut :| CutsOne(a, b, cut) {
        assert forall o :: o in a.cuts ==> o in b.cuts && b.cuts[o] == a.cuts[o];
        assert b.cuts[a.top] == cut;
        WeightGains(a.cuts, a.top, cut, sizes);
      }
      TopIsWeight(states, calls, sizes, k - 1);
    }
  }

  function PeakBytes(states: seq<Arena>, k: nat): (f: int -> int)
    requires k < |states|
    ensures forall s :: f(s) == s * Peak(states, s, k)
  {
    s => s * Peak(states, s, k)
  }

  lemma {:induction false} PeakWasLive(states: seq<Arena>, s: int, k: nat) returns (j: nat)
    requires k < |states| && Peak(states, s, k) > 0
    ensures j <= k && LiveAt(states[j].live, s) != {}
    decreases k
  {
    if LiveCount(states[k], s) > 0 {
      j := k;
    } else {
      j := PeakWasLive(states, s, k - 1);
    }
  }

  /** Every slot size in use up to state `k` is in `sizes`. */
  ghost predicate AllSizes(states: seq<Arena>, k: nat, sizes: set<int>)
    requires k < |states|
  {
    forall j, id :: 0 <= j <= k && id in states[j].live ==> states[j].live[id].slot in sizes
  }

  /** In every run, the bytes ever handed out are exactly the sum over slot sizes of the size times the
      most slots of that size that were in use at once. */
  lemma HighWaterMark(states: seq<Arena>, calls: seq<Call>, k: nat, sizes: set<int>)
    requires IsRun(states, calls) && k < |states| && AllSizes(states, k, sizes)
    ensures states[k].top == Sum(sizes, PeakBytes(states, k))
  {
    forall o | o in states[k].cuts ensures states[k].cuts[o] in sizes {
      var s := states[k].cuts[o];
      CutsArePeaks(states, calls, s, k);
      assert o in CutsAt(states[k].cuts, s);
      var j := PeakWasLive(states, s, k);
      var id := Member(LiveAt(states[j].live, s));
    }
    TopIsWeight(states, calls, sizes, k);
    forall s | s in sizes ensures Weight(states[k].cuts)(s) == PeakBytes(states, k)(s) {
      CutsArePeaks(states, calls, s, k);
    }
    SumSame(sizes, Weight(states[k].cuts), PeakBytes(states, k));
  }
}
