/** Fixed-point resource sets (1000 milli-units per unit): the accounting that
    assignment and release run on every worker. */
module Resources {
  import opened Types

  /** Milli-units in a signed 64-bit integer, assumed not to be negative. */
  type Quantity = q: int | 0 <= q <= I64_MAX

  type ResourceSet = map<Name, Quantity>

  /** An absent name means none of that resource. */
  function Get(r: ResourceSet, name: Name): Quantity
  {
    if name in r then r[name] else 0
  }

  predicate CanFit(have: ResourceSet, needed: ResourceSet)
  {
    forall name :: name in needed ==> Get(have, name) >= needed[name]
  }

  /** `returned` can be given back without any resource exceeding `total`. */
  predicate CanReturn(have: ResourceSet, returned: ResourceSet, total: ResourceSet)
  {
    forall name :: name in returned ==> Get(have, name) + returned[name] <= Get(total, name)
  }

  /** A name stays listed unless `other` names it and the amount left is zero. */
  predicate Listed(have: ResourceSet, other: ResourceSet, name: Name, left: int)
  {
    (name in have || name in other) && (name in other ==> left != 0)
  }

  /** What is left of `have` once `needed` is taken out. */
  function Minus(have: ResourceSet, needed: ResourceSet): (r: ResourceSet)
    requires CanFit(have, needed)
  {
    map name | name in have.Keys + needed.Keys && Listed(have, needed, name, Get(have, name) - Get(needed, name))
      :: Get(have, name) - Get(needed, name)
  }

  /** `have` with `returned` added back. */
  function Plus(have: ResourceSet, returned: ResourceSet, total: ResourceSet): (r: ResourceSet)
    requires CanReturn(have, returned, total)
  {
    map name | name in have.Keys + returned.Keys && Listed(have, returned, name, Get(have, name) + Get(returned, name))
      :: Get(have, name) + Get(returned, name)
  }

  lemma MinusGet(have: ResourceSet, needed: ResourceSet, name: Name)
    requires CanFit(have, needed)
    ensures Get(Minus(have, needed), name) == Get(have, name) - Get(needed, name)
  {
  }

  lemma PlusGet(have: ResourceSet, returned: ResourceSet, total: ResourceSet, name: Name)
    requires CanReturn(have, returned, total)
    ensures Get(Plus(have, returned, total), name) == Get(have, name) + Get(returned, name)
  {
  }

  /** `now` is `have` changed by `sign * change`, except that the names in `todo` are still to be done. */
  ghost predicate ChangedUpTo(now: ResourceSet, have: ResourceSet, change: ResourceSet, sign: int, todo: set<Name>)
  {
    && (forall name :: name in todo || name !in change ==>
          (name in now <==> name in have) && Get(now, name) == Get(have, name))
    && (forall name :: name in change && name !in todo ==>
          && (name in now <==> Get(have, name) + sign * change[name] != 0)
          && Get(now, name) == Get(have, name) + sign * change[name])
  }

  lemma SubtractDone(now: ResourceSet, have: ResourceSet, needed: ResourceSet)
    requires CanFit(have, needed) && ChangedUpTo(now, have, needed, -1, {})
    ensures now == Minus(have, needed)
  {
    assert now.Keys == Minus(have, needed).Keys;
  }

  lemma AddDone(now: ResourceSet, have: ResourceSet, returned: ResourceSet, total: ResourceSet)
    requires CanReturn(have, returned, total) && ChangedUpTo(now, have, returned, 1, {})
    ensures now == Plus(have, returned, total)
  {
    assert now.Keys == Plus(have, returned, total).Keys;
  }

  /** Takes `needed` out of `have`: all of it or, when something is short, none of it. */
  method Subtract(have: ResourceSet, needed: ResourceSet) returns (r: Result<ResourceSet>)
    ensures r.Ok? <==> CanFit(have, needed)
    ensures r.Ok? ==> r.value == Minus(have, needed)
    ensures r.Err? ==> r.error == InvalidResource("insufficient resources")
  {
    if !CanFit(have, needed) {
      return Err(InvalidResource("insufficient resources"));
    }
    var left: ResourceSet := have;
    var names := needed.Keys;
    while names != {}
      invariant names <= needed.Keys
      invariant ChangedUpTo(left, have, needed, -1, names)
    {
      var name :| name in names;
      var remaining := Get(left, name) - needed[name];
      if remaining == 0 {
        left := left - {name};
      } else {
        left := left[name := remaining];
      }
      names := names - {name};
    }
    SubtractDone(left, have, needed);
    r := Ok(left);
  }

  /** Gives `returned` back to `have`: all of it or, when it would exceed `total`, none of it. */
  method AddCapped(have: ResourceSet, returned: ResourceSet, total: ResourceSet) returns (r: Result<ResourceSet>)
    ensures r.Ok? <==> CanReturn(have, returned, total)
    ensures r.Ok? ==> r.value == Plus(have, returned, total)
    ensures r.Err? ==> r.error.InvalidResource?
  {
    var next: ResourceSet := have;
    var names := returned.Keys;
    while names != {}
      invariant names <= returned.Keys
      invariant ChangedUpTo(next, have, returned, 1, names)
      invariant forall name :: name in returned && name !in names ==>
        Get(have, name) + returned[name] <= Get(total, name)
    {
      var name :| name in names;
      var quantity := Get(next, name) + returned[name];
      if quantity > I64_MAX {
        return Err(InvalidResource("resource overflow"));
      }
      if quantity > Get(total, name) {
        return Err(InvalidResource("resource release exceeds worker total"));
      }
      if quantity == 0 {
        next := next - {name};
      } else {
        next := next[name := quantity];
      }
      names := names - {name};
    }
    AddDone(next, have, returned, total);
    r := Ok(next);
  }
}
