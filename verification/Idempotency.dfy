/** What the replay cache promises clients, told from the requests: which kinds it protects, when a retry is answered
    from memory, which requests need the right epoch, and when it is full. */
module Idempotency {
  import opened Types
  import opened Sums
  import opened Replay

  /** The client requests that must not run twice. */
  predicate RunsOnce(k: Kind)
  {
    k == Submit || k == SubmitBatch || k == Cancel || k == Release
  }

  /** The requests that are refused without the coordinator's current epoch. */
  predicate NeedsEpoch(k: Kind)
  {
    || RunsOnce(k)
    || k == Put || k == ArenaReserve || k == ArenaCommit || k == PutChunk
    || k == Heartbeat || k == Started || k == Completed || k == Failed || k == Cancelled || k == Drain
  }

  ghost function AnswerAt<S(!new), B(!new), R(!new)>(d: Dispatch<S, B, R>, servers: seq<Server<S, R>>,
                                                     arrivals: seq<Arrival<B>>, k: nat): Answer<R>
    requires |servers| == |arrivals| + 1 && k < |arrivals|
  {
    Serve(d, servers[k], arrivals[k].request, arrivals[k].now).1
  }

  /** The dispatcher runs the request: the state and the answer are what it makes of the body. */
  ghost predicate RunsAt<S(!new), B(!new), R(!new)>(d: Dispatch<S, B, R>, servers: seq<Server<S, R>>,
                                                    arrivals: seq<Arrival<B>>, k: nat)
    requires |servers| == |arrivals| + 1 && k < |arrivals|
  {
    var ran := d.run(servers[k].state, arrivals[k].request.body);
    servers[k + 1].state == ran.0 && AnswerAt(d, servers, arrivals, k) == Replied(ran.1)
  }

  /** A request that needs the epoch and does not have it is refused and changes nothing; no other is. */
  lemma EpochFences<S(!new), B(!new), R(!new)>(d: Dispatch<S, B, R>, v: Server<S, R>, q: Request<B>, now: int)
    ensures NeedsEpoch(q.kind) && q.epoch != Some(d.epoch) ==>
      Serve(d, v, q, now) ==
        (v, Refused(if q.epoch.Some? then StaleEpoch else Protocol("mutation requires coordinator epoch")))
    ensures Serve(d, v, q, now).1 == Refused(StaleEpoch) ==> NeedsEpoch(q.kind) && q.epoch != Some(d.epoch)
  {
  }

  /** Requests of every other kind run each time they arrive, and leave the cache alone. */
  lemma OthersAlwaysRun<S(!new), B(!new), R(!new)>(d: Dispatch<S, B, R>, servers: seq<Server<S, R>>,
                                                   arrivals: seq<Arrival<B>>, k: nat)
    requires IsRun(d, servers, arrivals) && k < |arrivals|
    requires var q := arrivals[k].request; !RunsOnce(q.kind) && (NeedsEpoch(q.kind) ==> q.epoch == Some(d.epoch))
    ensures RunsAt(d, servers, arrivals, k) && servers[k + 1].cache == servers[k].cache
  {
    assert StepAt(d, servers, arrivals, k);
  }

  /** The cache only knows ids of requests that have arrived. */
  lemma {:induction false} CachedHasArrived<S(!new), B(!new), R(!new)>(
      d: Dispatch<S, B, R>, servers: seq<Server<S, R>>, arrivals: seq<Arrival<B>>, k: nat, id: RequestId)
    requires IsRun(d, servers, arrivals) && k < |servers| && id in servers[k].cache.entries
    ensures exists j :: 0 <= j < k && arrivals[j].request.id == id
    decreases k
  {
    if k > 0 {
      assert StepAt(d, servers, arrivals, k - 1);
      if id in servers[k - 1].cache.entries {
        CachedHasArrived(d, servers, arrivals, k - 1, id);
      } else {
        assert arrivals[k - 1].request.id == id;
      }
    }
  }

  /** The first arrival of an id that runs once and is answered was run, and its answer is remembered. */
  lemma FirstIsDispatched<S(!new), B(!new), R(!new)>(d: Dispatch<S, B, R>, servers: seq<Server<S, R>>,
                                                     arrivals: seq<Arrival<B>>, i: nat)
    requires IsRun(d, servers, arrivals) && i < |arrivals| && RunsOnce(arrivals[i].request.kind)
    requires forall k :: 0 <= k < i ==> arrivals[k].request.id != arrivals[i].request.id
    requires AnswerAt(d, servers, arrivals, i).Replied?
    ensures RunsAt(d, servers, arrivals, i) && DispatchesAt(d, servers, arrivals, i, arrivals[i].request.id)
  {
    var id := arrivals[i].request.id;
    if id in servers[i].cache.entries {
      CachedHasArrived(d, servers, arrivals, i, id);
    }
    assert StepAt(d, servers, arrivals, i);
  }

  /** What is remembered of it: the answer, the hash of the body and the size of the answer, until the deadline but
      never longer than 30 seconds. */
  lemma RememberedAs<S(!new), B(!new), R(!new)>(d: Dispatch<S, B, R>, servers: seq<Server<S, R>>,
                                                arrivals: seq<Arrival<B>>, i: nat)
    requires IsRun(d, servers, arrivals) && i < |arrivals| && RunsOnce(arrivals[i].request.kind)
    requires forall k :: 0 <= k < i ==> arrivals[k].request.id != arrivals[i].request.id
    requires AnswerAt(d, servers, arrivals, i).Replied?
    ensures var q, now := arrivals[i].request, arrivals[i].now;
      && q.id in servers[i + 1].cache.entries
      && var e := servers[i + 1].cache.entries[q.id];
         && Replied(e.reply) == AnswerAt(d, servers, arrivals, i) && e.hash == d.hash(q.body)
         && e.bytes == d.size(e.reply) && e.expiresAt == Min(now + Min(Max(q.deadline - now, 0), 30_000), U64_MAX)
  {
    FirstIsDispatched(d, servers, arrivals, i);
    assert StepAt(d, servers, arrivals, i);
  }

  /** So the counter counts real replies: every entry is as large as the reply it holds. */
  lemma {:induction false} EntriesArePriced<S(!new), B(!new), R(!new)>(
      d: Dispatch<S, B, R>, servers: seq<Server<S, R>>, arrivals: seq<Arrival<B>>, k: nat, id: RequestId)
    requires IsRun(d, servers, arrivals) && k < |servers| && id in servers[k].cache.entries
    ensures servers[k].cache.entries[id].bytes == d.size(servers[k].cache.entries[id].reply)
    decreases k
  {
    if k > 0 {
      assert StepAt(d, servers, arrivals, k - 1);
      if id in servers[k - 1].cache.entries {
        EntriesArePriced(d, servers, arrivals, k - 1, id);
      }
    }
  }

  /** A submission, batch submission, cancellation or release that was run and answered is not run again when it
      arrives again before its deadline and within 30 seconds. The repeat changes nothing. Under the current epoch it
      gets the first answer if its body hashes the same and is refused if not. */
  lemma RetryRunsNothing<S(!new), B(!new), R(!new)>(d: Dispatch<S, B, R>, servers: seq<Server<S, R>>,
                                                    arrivals: seq<Arrival<B>>, i: nat, j: nat)
    requires IsRun(d, servers, arrivals) && i < j < |arrivals|
    requires arrivals[j].request.id == arrivals[i].request.id
    requires RunsOnce(arrivals[i].request.kind) && RunsOnce(arrivals[j].request.kind)
    requires forall k :: 0 <= k < i ==> arrivals[k].request.id != arrivals[i].request.id
    requires AnswerAt(d, servers, arrivals, i).Replied? && arrivals[i].request.deadline <= U64_MAX
    requires arrivals[j].now < Min(arrivals[i].request.deadline, arrivals[i].now + 30_000)
    ensures RunsAt(d, servers, arrivals, i)
    ensures servers[j + 1] == servers[j]
    ensures arrivals[j].request.epoch == Some(d.epoch) ==>
      AnswerAt(d, servers, arrivals, j) ==
        if d.hash(arrivals[j].request.body) == d.hash(arrivals[i].request.body) then AnswerAt(d, servers, arrivals, i)
        else Refused(Protocol("request id reused with different body"))
  {
    FirstIsDispatched(d, servers, arrivals, i);
    assert StepAt(d, servers, arrivals, j);
    if arrivals[j].request.epoch == Some(d.epoch) {
      RetryIsReplayed(d, servers, arrivals, i, j);
    } else {
      EpochFences(d, servers[j], arrivals[j].request, arrivals[j].now);
    }
  }

  // ---------------------------------------------------------------- a full cache

  /** The entries that have not expired, and what they cost: their reply and 40 bytes each. */
  function Unexpired<R>(c: Cache<R>, now: int): set<RequestId>
  {
    set id | id in c.entries && now < c.entries[id].expiresAt
  }

  /** An entry takes its reply and 40 bytes. */
  function PriceIn<R(!new)>(c: Cache<R>): (f: RequestId -> int)
    ensures forall id :: f(id) == if id in c.entries then c.entries[id].bytes + 40 else 0
  {
    id => if id in c.entries then c.entries[id].bytes + 40 else 0
  }

  ghost predicate FullWith<R(!new)>(c: Cache<R>, ids: set<RequestId>)
  {
    |ids| >= 16_384 || Sum(ids, PriceIn(c)) >= 67_108_864
  }

  ghost predicate SameEntries<R>(b: Cache<R>, c: Cache<R>)
  {
    forall id :: id in b.entries ==> id in c.entries && b.entries[id] == c.entries[id]
  }

  /** `b` is `c` without some of its entries, and its counter is exact. */
  ghost predicate PartOf<R(!new)>(b: Cache<R>, c: Cache<R>)
  {
    CacheInv(b) && SameEntries(b, c)
  }

  lemma PriceIs<R(!new)>(c: Cache<R>, b: Cache<R>)
    requires PartOf(b, c)
    ensures Sum(b.entries.Keys, PriceIn(c)) == b.usedBytes && |b.entries.Keys| == |b.entries|
  {
    forall id | id in b.entries.Keys ensures CostOf(b.entries)(id) == PriceIn(c)(id) {
    }
    SumSame(b.entries.Keys, CostOf(b.entries), PriceIn(c));
  }

  lemma RoomyIsNotFull<R(!new)>(c: Cache<R>, b: Cache<R>, ids: set<RequestId>)
    requires PartOf(b, c) && ids <= b.entries.Keys && !AtCapacity(b)
    ensures !FullWith(c, ids)
  {
    PriceIs(c, b);
    SumSplit(b.entries.Keys, ids, PriceIn(c));
    SumNonNegative(b.entries.Keys - ids, PriceIn(c));
    SubsetSize(ids, b.entries.Keys);
  }

  lemma SweptKeys<R(!new)>(c: Cache<R>, b: Cache<R>, now: int)
    requires SameEntries(b, c) && Unexpired(c, now) <= b.entries.Keys
    ensures (b.entries - ExpiredIds(b, now)).Keys == Unexpired(c, now)
  {
    var left := b.entries - ExpiredIds(b, now);
    assert forall id :: id in Unexpired(c, now) ==> id in b.entries.Keys && id in left;
    assert forall id :: id in left ==> id in Unexpired(c, now);
  }

  lemma SweptIsPart<R(!new)>(c: Cache<R>, b: Cache<R>, p: Cache<R>, now: int)
    requires PartOf(b, c) && Unexpired(c, now) <= b.entries.Keys && p == Sweep(b, now)
    ensures PartOf(p, c) && p.entries.Keys == Unexpired(c, now)
  {
    SweepKeeps(b, now);
    SweptKeys(c, b, now);
    hide CacheInv, Unexpired;
  }

  lemma SweptIsFullIff<R(!new)>(c: Cache<R>, b: Cache<R>, p: Cache<R>, now: int)
    requires PartOf(b, c) && Unexpired(c, now) <= b.entries.Keys && p == Sweep(b, now)
    ensures AtCapacity(p) <==> FullWith(c, Unexpired(c, now))
  {
    hide PartOf, Sweep, Unexpired;
    SweptIsPart(c, b, p, now);
    PriceIs(c, p);
  }

  lemma PreparedIsFullIff<R(!new)>(c: Cache<R>, id: RequestId, now: int)
    requires CacheInv(c) && id !in Unexpired(c, now)
    ensures AtCapacity(Prepared(c, id, now)) <==> FullWith(c, Unexpired(c, now))
  {
    hide CacheInv, FullWith, Sweep, AtCapacity;
    var d := if id in c.entries && c.entries[id].expiresAt <= now then Remove(c, id) else c;
    RemoveKeeps(c, id);
    if AtCapacity(d) {
      SweptIsFullIff(c, d, Sweep(d, now), now);
    } else {
      RoomyIsNotFull(c, d, Unexpired(c, now));
    }
  }

  /** A request that runs once is turned away for lack of room exactly when it is not remembered itself and the
      entries that have not expired number 16384 or take 64 MiB with 40 bytes of overhead each. Then nothing runs. */
  lemma TurnedAwayIffFull<S(!new), B(!new), R(!new)>(d: Dispatch<S, B, R>, v: Server<S, R>, q: Request<B>, now: int)
    requires CacheInv(v.cache) && RunsOnce(q.kind) && q.epoch == Some(d.epoch)
    ensures Serve(d, v, q, now).1 == Refused(CapacityExceeded("replay cache limit reached")) <==>
      q.id !in Unexpired(v.cache, now) && FullWith(v.cache, Unexpired(v.cache, now))
    ensures Serve(d, v, q, now).1.Refused? ==> Serve(d, v, q, now).0.state == v.state
  {
    hide CacheInv, FullWith, Prepared;
    if q.id !in Unexpired(v.cache, now) {
      PreparedIsFullIff(v.cache, q.id, now);
    }
  }
}
