/** The idempotency cache in front of the dispatcher: at most one dispatch of a request id until its entry expires. */
module Replay {
  import opened Types
  import opened Sums

  const MAX_REPLAY_ENTRIES: nat := 16_384
  const MAX_REPLAY_BYTES: nat := 64 * 1024 * 1024
  const REPLAY_ENTRY_OVERHEAD: nat := 40
  const MAX_REPLAY_TTL_MS: nat := 30_000

  datatype Kind =
    | Connect | Put | Submit | SubmitBatch | Status | Get | GetBatch | GetLocal | ArenaReserve | ArenaCommit
    | PutChunk | GetChunk | Workers | Cancel | Release
    | Register | Heartbeat | Poll | Started | Completed | Failed | Cancelled | Drain

  /** Requests that change the coordinator and so must name its epoch. */
  predicate IsMutation(k: Kind)
  {
    match k
    case Put | ArenaReserve | ArenaCommit | PutChunk | Submit | SubmitBatch | Cancel | Release => true
    case Heartbeat | Started | Completed | Failed | Cancelled | Drain => true
    case _ => false
  }

  predicate ShouldCache(k: Kind)
  {
    k.Submit? || k.SubmitBatch? || k.Cancel? || k.Release?
  }

  datatype Request<B> = Request(id: RequestId, kind: Kind, body: B, epoch: Option<Epoch>, deadline: int)

  datatype Entry<R> = Entry(hash: Digest, reply: R, expiresAt: int, bytes: nat)

  datatype Cache<R> = Cache(entries: map<RequestId, Entry<R>>, usedBytes: int)

  datatype Answer<R> = Replied(reply: R) | Refused(error: Error)

  /** What the dispatcher runs on: how a body changes the state, how it is hashed, how large a reply encodes. */
  datatype Dispatch<!S, !B, !R> = Dispatch(epoch: Epoch, run: (S, B) -> (S, R), hash: B -> Digest, size: R -> nat)

  datatype Server<S, R> = Server(state: S, cache: Cache<R>)

  function Cost<R>(e: Entry<R>): nat
  {
    e.bytes + REPLAY_ENTRY_OVERHEAD
  }

  function Remove<R>(c: Cache<R>, id: RequestId): Cache<R>
  {
    if id in c.entries then Cache(c.entries - {id}, c.usedBytes - Cost(c.entries[id])) else c
  }

  function Insert<R>(c: Cache<R>, id: RequestId, e: Entry<R>): Cache<R>
  {
    Cache(c.entries[id := e], c.usedBytes + Cost(e))
  }

  predicate AtCapacity<R>(c: Cache<R>)
  {
    |c.entries| >= MAX_REPLAY_ENTRIES || c.usedBytes >= MAX_REPLAY_BYTES
  }

  function ExpiredIds<R>(c: Cache<R>, now: int): set<RequestId>
  {
    set id | id in c.entries && c.entries[id].expiresAt <= now
  }

  function CostOf<R(!new)>(entries: map<RequestId, Entry<R>>): (f: RequestId -> int)
    ensures forall id :: id in entries ==> f(id) == Cost(entries[id])
    ensures forall id :: f(id) >= 0
  {
    id => if id in entries then Cost(entries[id]) else 0
  }

  /** Drops what has expired and takes its cost off the total. */
  ghost function Sweep<R(!new)>(c: Cache<R>, now: int): Cache<R>
  {
    Cache(c.entries - ExpiredIds(c, now), c.usedBytes - Sum(ExpiredIds(c, now), CostOf(c.entries)))
  }

  function ExpiryOf(deadline: int, now: int): int
  {
    SatAdd(now, Min(SatSub(deadline, now), MAX_REPLAY_TTL_MS))
  }

  // ---------------------------------------------------------------- one request

  /** The cache after dropping a stale entry for `id` and, under pressure, everything stale. */
  ghost function Prepared<R(!new)>(c: Cache<R>, id: RequestId, now: int): Cache<R>
  {
    var d := if id in c.entries && c.entries[id].expiresAt <= now then Remove(c, id) else c;
    if AtCapacity(d) then Sweep(d, now) else d
  }

  predicate Fresh<R>(c: Cache<R>, id: RequestId, now: int)
  {
    id in c.entries && now < c.entries[id].expiresAt
  }

  ghost function EpochError<S, B, R>(d: Dispatch<S, B, R>, q: Request<B>): Option<Error>
  {
    if !IsMutation(q.kind) || q.epoch == Some(d.epoch) then None
    else if q.epoch.Some? then Some(StaleEpoch)
    else Some(Protocol("mutation requires coordinator epoch"))
  }

  ghost function Serve<S(!new), B(!new), R(!new)>(d: Dispatch<S, B, R>, v: Server<S, R>, q: Request<B>, now: int)
    : (Server<S, R>, Answer<R>)
  {
    if EpochError(d, q).Some? then (v, Refused(EpochError(d, q).value))
    else if !ShouldCache(q.kind) then
      var (state, reply) := d.run(v.state, q.body);
      (v.(state := state), Replied(reply))
    else if Fresh(v.cache, q.id, now) then
      var e := v.cache.entries[q.id];
      if e.hash != d.hash(q.body) then (v, Refused(Protocol("request id reused with different body")))
      else (v, Replied(e.reply))
    else
      var c := Prepared(v.cache, q.id, now);
      if AtCapacity(c) then (v.(cache := c), Refused(CapacityExceeded("replay cache limit reached")))
      else
        var (state, reply) := d.run(v.state, q.body);
        var e := Entry(d.hash(q.body), reply, ExpiryOf(q.deadline, now), d.size(reply));
        (Server(state, Insert(c, q.id, e)), Replied(reply))
  }

  /** The request gets through to the dispatcher and its reply is remembered. */
  ghost predicate Dispatches<S(!new), B(!new), R(!new)>(d: Dispatch<S, B, R>, v: Server<S, R>, q: Request<B>, now: int)
  {
    && EpochError(d, q).None? && ShouldCache(q.kind)
    && !Fresh(v.cache, q.id, now) && !AtCapacity(Prepared(v.cache, q.id, now))
  }

  // ---------------------------------------------------------------- the counter

  /** The byte counter is exact and the table stays within its cap. */
  ghost predicate CacheInv<R(!new)>(c: Cache<R>)
  {
    c.usedBytes == Sum(c.entries.Keys, CostOf(c.entries)) && |c.entries| <= 16_384
  }

  lemma CostSame<R(!new)>(a: map<RequestId, Entry<R>>, b: map<RequestId, Entry<R>>, ids: set<RequestId>)
    requires forall id :: id in ids ==> id in a && id in b && a[id] == b[id]
    ensures Sum(ids, CostOf(a)) == Sum(ids, CostOf(b))
  {
    forall id | id in ids ensures CostOf(a)(id) == CostOf(b)(id) {
    }
    SumSame(ids, CostOf(a), CostOf(b));
  }

  lemma RemoveKeeps<R(!new)>(c: Cache<R>, id: RequestId)
    requires CacheInv(c)
    ensures CacheInv(Remove(c, id)) && 0 <= Remove(c, id).usedBytes
  {
    var b := Remove(c, id);
    if id in c.entries {
      SumRemove(c.entries.Keys, CostOf(c.entries), id);
      assert b.entries.Keys == c.entries.Keys - {id};
      CostSame(c.entries, b.entries, b.entries.Keys);
      assert |c.entries.Keys - {id}| == |c.entries.Keys| - 1;
      assert |b.entries| == |b.entries.Keys| && |c.entries| == |c.entries.Keys|;
    }
    SumNonNegative(b.entries.Keys, CostOf(b.entries));
  }

  lemma SweepKeeps<R(!new)>(c: Cache<R>, now: int)
    requires CacheInv(c)
    ensures CacheInv(Sweep(c, now)) && 0 <= Sweep(c, now).usedBytes
  {
    var b := Sweep(c, now);
    SumSplit(c.entries.Keys, ExpiredIds(c, now), CostOf(c.entries));
    assert b.entries.Keys == c.entries.Keys - ExpiredIds(c, now);
    CostSame(c.entries, b.entries, b.entries.Keys);
    SubsetSize(b.entries.Keys, c.entries.Keys);
    assert |b.entries| == |b.entries.Keys| && |c.entries| == |c.entries.Keys|;
    SumNonNegative(b.entries.Keys, CostOf(b.entries));
  }

  /** An insert is exact because its id is absent. */
  lemma InsertKeeps<R(!new)>(c: Cache<R>, id: RequestId, e: Entry<R>)
    requires CacheInv(c) && id !in c.entries && !AtCapacity(c)
    ensures CacheInv(Insert(c, id, e))
  {
    var b := Insert(c, id, e);
    assert b.entries.Keys == c.entries.Keys + {id};
    SumAdd(c.entries.Keys, CostOf(b.entries), id);
    CostSame(c.entries, b.entries, c.entries.Keys);
    assert |b.entries| == |b.entries.Keys| && |c.entries| == |c.entries.Keys|;
  }

  /** Making room drops only expired entries, the touched one among them. */
  lemma PreparedEntries<R(!new)>(c: Cache<R>, id: RequestId, now: int, i: RequestId)
    requires !Fresh(c, id, now)
    ensures id !in Prepared(c, id, now).entries
    ensures i in c.entries && now < c.entries[i].expiresAt ==>
      i in Prepared(c, id, now).entries && Prepared(c, id, now).entries[i] == c.entries[i]
  {
  }

  lemma PreparedKeeps<R(!new)>(c: Cache<R>, id: RequestId, now: int, p: Cache<R>)
    requires p == Prepared(c, id, now)
    ensures CacheInv(c) ==> CacheInv(p)
  {
    if CacheInv(c) {
      var d := if id in c.entries && c.entries[id].expiresAt <= now then Remove(c, id) else c;
      RemoveKeeps(c, id);
      if AtCapacity(d) {
        SweepKeeps(d, now);
      }
    }
  }

  /** Every request keeps the counter exact and the table within its cap. */
  lemma ServeKeeps<S(!new), B(!new), R(!new)>(d: Dispatch<S, B, R>, v: Server<S, R>, q: Request<B>, now: int)
    requires CacheInv(v.cache)
    ensures CacheInv(Serve(d, v, q, now).0.cache)
  {
    if EpochError(d, q).None? && ShouldCache(q.kind) && !Fresh(v.cache, q.id, now) {
      var c := Prepared(v.cache, q.id, now);
      PreparedKeeps(v.cache, q.id, now, c);
      PreparedEntries(v.cache, q.id, now, q.id);
      if !AtCapacity(c) {
        var reply := d.run(v.state, q.body).1;
        InsertKeeps(c, q.id, Entry(d.hash(q.body), reply, ExpiryOf(q.deadline, now), d.size(reply)));
      }
    }
  }

  // ---------------------------------------------------------------- runs

  /** One request as it arrives, and the clock then. */
  datatype Arrival<B> = Arrival(request: Request<B>, now: int)

  ghost predicate StepAt<S(!new), B(!new), R(!new)>(d: Dispatch<S, B, R>, servers: seq<Server<S, R>>,
                                                    arrivals: seq<Arrival<B>>, k: nat)
    requires k + 1 < |servers| && k < |arrivals|
  {
    servers[k + 1] == Serve(d, servers[k], arrivals[k].request, arrivals[k].now).0
  }

  /** Requests served one after the other, starting with an empty cache, by a clock that never runs backwards. */
  ghost predicate IsRun<S(!new), B(!new), R(!new)>(d: Dispatch<S, B, R>, servers: seq<Server<S, R>>,
                                                   arrivals: seq<Arrival<B>>)
  {
    && |servers| == |arrivals| + 1
    && servers[0].cache == Cache(map[], 0)
    && (forall k :: 0 <= k < |arrivals| ==> StepAt(d, servers, arrivals, k))
    && (forall i, j :: 0 <= i <= j < |arrivals| ==> arrivals[i].now <= arrivals[j].now)
  }

  lemma EmptyInv<R(!new)>(c: Cache<R>)
    requires c == Cache(map[], 0)
    ensures CacheInv(c)
  {
  }

  lemma StepKeeps<S(!new), B(!new), R(!new)>(d: Dispatch<S, B, R>, servers: seq<Server<S, R>>,
                                             arrivals: seq<Arrival<B>>, k: nat)
    requires IsRun(d, servers, arrivals) && k < |arrivals| && CacheInv(servers[k].cache)
    ensures CacheInv(servers[k + 1].cache)
  {
    hide CacheInv, Serve;
    assert StepAt(d, servers, arrivals, k);
    ServeKeeps(d, servers[k], arrivals[k].request, arrivals[k].now);
  }

  lemma {:induction false} RunCacheInv<S(!new), B(!new), R(!new)>(d: Dispatch<S, B, R>, servers: seq<Server<S, R>>,
                                                                  arrivals: seq<Arrival<B>>, k: nat)
    requires IsRun(d, servers, arrivals) && k < |servers|
    ensures CacheInv(servers[k].cache)
    decreases k
  {
    hide CacheInv, StepAt;
    if k == 0 {
      EmptyInv(servers[0].cache);
    } else {
      RunCacheInv(d, servers, arrivals, k - 1);
      StepKeeps(d, servers, arrivals, k - 1);
    }
  }

  /** Step `k` dispatches request `id`. */
  ghost predicate DispatchesAt<S(!new), B(!new), R(!new)>(d: Dispatch<S, B, R>, servers: seq<Server<S, R>>,
                                                          arrivals: seq<Arrival<B>>, k: nat, id: RequestId)
    requires |servers| == |arrivals| + 1 && k < |arrivals|
  {
    arrivals[k].request.id == id && Dispatches(d, servers[k], arrivals[k].request, arrivals[k].now)
  }

  /** What the cache keeps of the request dispatched at step `i`. */
  ghost function Kept<S(!new), B(!new), R(!new)>(d: Dispatch<S, B, R>, servers: seq<Server<S, R>>,
                                                 arrivals: seq<Arrival<B>>, i: nat): Entry<R>
    requires |servers| == |arrivals| + 1 && i < |arrivals|
  {
    var q := arrivals[i].request;
    var reply := d.run(servers[i].state, q.body).1;
    Entry(d.hash(q.body), reply, ExpiryOf(q.deadline, arrivals[i].now), d.size(reply))
  }

  ghost predicate Remembers<S, R>(v: Server<S, R>, id: RequestId, e: Entry<R>)
  {
    id in v.cache.entries && v.cache.entries[id] == e
  }

  lemma ServeRemembers<S(!new), B(!new), R(!new)>(d: Dispatch<S, B, R>, v: Server<S, R>, q: Request<B>, now: int,
                                                  id: RequestId, e: Entry<R>)
    requires Remembers(v, id, e) && now < e.expiresAt
    ensures Remembers(Serve(d, v, q, now).0, id, e) && !(q.id == id && Dispatches(d, v, q, now))
  {
    if !Fresh(v.cache, q.id, now) {
      PreparedEntries(v.cache, q.id, now, id);
    }
  }

  /** Until the entry expires the cache remembers it and the id is not dispatched again. */
  lemma {:induction false} RemembersUntilExpiry<S(!new), B(!new), R(!new)>(
      d: Dispatch<S, B, R>, servers: seq<Server<S, R>>, arrivals: seq<Arrival<B>>, i: nat, j: nat, id: RequestId)
    requires IsRun(d, servers, arrivals) && i < j <= |arrivals| && DispatchesAt(d, servers, arrivals, i, id)
    requires forall k :: i < k < j ==> arrivals[k].now < Kept(d, servers, arrivals, i).expiresAt
    ensures Remembers(servers[j], id, Kept(d, servers, arrivals, i))
    decreases j
  {
    assert StepAt(d, servers, arrivals, j - 1);
    if i < j - 1 {
      RemembersUntilExpiry(d, servers, arrivals, i, j - 1, id);
      ServeRemembers(d, servers[j - 1], arrivals[j - 1].request, arrivals[j - 1].now, id,
                     Kept(d, servers, arrivals, i));
    }
  }

  /** At most once: an id is dispatched again only when the first dispatch's entry has expired, which is at the
      request's deadline or after 30 seconds, whichever is first. */
  lemma AtMostOnce<S(!new), B(!new), R(!new)>(d: Dispatch<S, B, R>, servers: seq<Server<S, R>>,
                                              arrivals: seq<Arrival<B>>, i: nat, j: nat, id: RequestId)
    requires IsRun(d, servers, arrivals) && i < j < |arrivals|
    requires DispatchesAt(d, servers, arrivals, i, id) && DispatchesAt(d, servers, arrivals, j, id)
    ensures arrivals[j].now >= ExpiryOf(arrivals[i].request.deadline, arrivals[i].now)
    ensures arrivals[i].now + 30_000 <= U64_MAX ==>
      arrivals[j].now >= Min(arrivals[i].request.deadline, arrivals[i].now + 30_000)
  {
    var e := Kept(d, servers, arrivals, i);
    if arrivals[j].now < e.expiresAt {
      RemembersUntilExpiry(d, servers, arrivals, i, j, id);
    }
  }

  /** Before that, a retry with the same body gets the stored reply and one with another body is refused;
      neither touches the state or the cache. */
  lemma RetryIsReplayed<S(!new), B(!new), R(!new)>(d: Dispatch<S, B, R>, servers: seq<Server<S, R>>,
                                                   arrivals: seq<Arrival<B>>, i: nat, j: nat)
    requires IsRun(d, servers, arrivals) && i < j < |arrivals|
    requires DispatchesAt(d, servers, arrivals, i, arrivals[j].request.id)
    requires ShouldCache(arrivals[j].request.kind) && EpochError(d, arrivals[j].request).None?
    requires arrivals[j].now < ExpiryOf(arrivals[i].request.deadline, arrivals[i].now)
    ensures servers[j + 1] == servers[j]
    ensures var answer := Serve(d, servers[j], arrivals[j].request, arrivals[j].now).1;
      answer == if d.hash(arrivals[j].request.body) == d.hash(arrivals[i].request.body)
                then Replied(d.run(servers[i].state, arrivals[i].request.body).1)
                else Refused(Protocol("request id reused with different body"))
  {
    RemembersUntilExpiry(d, servers, arrivals, i, j, arrivals[j].request.id);
    assert StepAt(d, servers, arrivals, j);
  }
}
