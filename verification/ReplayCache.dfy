/** The replay cache and the dispatcher in front of the coordinator, as objects updated in place. */
module ReplayCaching {
  import opened Types
  import opened Sums
  import opened Replay

  class ReplayCache<R(!new)> {
    var entries: map<RequestId, Entry<R>>
    var usedBytes: int

    ghost function View(): Cache<R>
      reads this
    {
      Cache(entries, usedBytes)
    }

    ghost predicate Valid()
      reads this
    {
      CacheInv(View())
    }

    constructor ()
      ensures Valid() && View() == Cache(map[], 0)
    {
      entries := map[];
      usedBytes := 0;
    }

    method Remove(id: RequestId)
      modifies this
      ensures View() == Replay.Remove(old(View()), id)
    {
      if id in entries {
        var e := entries[id];
        entries := entries - {id};
        usedBytes := usedBytes - (e.bytes + REPLAY_ENTRY_OVERHEAD);
      }
    }

    method Insert(id: RequestId, e: Entry<R>)
      modifies this
      ensures View() == Replay.Insert(old(View()), id, e)
    {
      usedBytes := usedBytes + (e.bytes + REPLAY_ENTRY_OVERHEAD);
      entries := entries[id := e];
    }

    method AtCapacity() returns (full: bool)
      ensures full <==> Replay.AtCapacity(View())
    {
      return |entries| >= MAX_REPLAY_ENTRIES || usedBytes >= MAX_REPLAY_BYTES;
    }

    /** Drops expired entries one by one, in any order, and takes what they cost off the total. */
    method Sweep(now: int)
      modifies this
      ensures View() == Replay.Sweep(old(View()), now)
    {
      ghost var cost := CostOf(entries);
      var freed := 0;
      ghost var gone: set<RequestId> := {};
      var todo := entries.Keys;
      while todo != {}
        invariant todo <= entries.Keys && usedBytes == old(usedBytes)
        invariant gone == (set id | id in ExpiredIds(old(View()), now) && id !in todo)
        invariant entries == old(entries) - gone && freed == Sum(gone, cost)
      {
        ghost var some := Member(todo);
        var id :| id in todo;
        todo := todo - {id};
        if entries[id].expiresAt <= now {
          freed := freed + (entries[id].bytes + REPLAY_ENTRY_OVERHEAD);
          entries := entries - {id};
          SumAdd(gone, cost, id);
          gone := gone + {id};
        }
      }
      assert gone == ExpiredIds(old(View()), now);
      usedBytes := usedBytes - freed;
    }
  }

  class Dispatcher<S(!new), B(!new), R(!new)> {
    const d: Dispatch<S, B, R>
    const cache: ReplayCache<R>
    var state: S

    ghost function View(): Server<S, R>
      reads this, cache
    {
      Server(state, cache.View())
    }

    constructor (d: Dispatch<S, B, R>, state: S)
      ensures View() == Server(state, Cache(map[], 0)) && this.d == d && fresh(cache) && cache.Valid()
    {
      this.d := d;
      this.state := state;
      cache := new ReplayCache();
    }

    method ValidateEpoch(q: Request<B>) returns (bad: Option<Error>)
      ensures bad == EpochError(d, q)
    {
      if IsMutation(q.kind) {
        if q.epoch.None? {
          return Some(Protocol("mutation requires coordinator epoch"));
        }
        if q.epoch.value != d.epoch {
          return Some(StaleEpoch);
        }
      }
      return None;
    }

    /** Drops a stale entry for the id and, under pressure, everything stale; reports whether there is room. */
    method MakeRoom(id: RequestId, now: int) returns (full: bool)
      requires !Fresh(cache.View(), id, now)
      modifies cache
      ensures cache.View() == Prepared(old(cache.View()), id, now)
      ensures full <==> Replay.AtCapacity(cache.View())
    {
      if id in cache.entries {
        cache.Remove(id);
      }
      full := cache.AtCapacity();
      if full {
        cache.Sweep(now);
        full := cache.AtCapacity();
      }
    }

    method DispatchOnce(q: Request<B>, now: int) returns (answer: Answer<R>)
      requires cache.Valid()
      modifies this, cache
      ensures cache.Valid()
      ensures (View(), answer) == Serve(d, old(View()), q, now)
    {
      ghost var v := View();
      ServeKeeps(d, v, q, now);
      var bad := ValidateEpoch(q);
      if bad.Some? {
        return Refused(bad.value);
      }
      if !ShouldCache(q.kind) {
        var out := d.run(state, q.body);
        state := out.0;
        return Replied(out.1);
      }
      var hash := d.hash(q.body);
      if q.id in cache.entries && now < cache.entries[q.id].expiresAt {
        var e := cache.entries[q.id];
        if e.hash != hash {
          return Refused(Protocol("request id reused with different body"));
        }
        return Replied(e.reply);
      }
      var full := MakeRoom(q.id, now);
      if full {
        return Refused(CapacityExceeded("replay cache limit reached"));
      }
      var out := d.run(state, q.body);
      state := out.0;
      cache.Insert(q.id, Entry(hash, out.1, ExpiryOf(q.deadline, now), d.size(out.1)));
      answer := Replied(out.1);
    }
  }
}
