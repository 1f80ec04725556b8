/** The ids of a tree, and the search for one that occurs twice. */
module Identifiers {
  import opened Prelude
  import opened Keys
  import opened Serial

  // ----- the ids in visiting order -----

  function TaskIds(order: Order, c: SCont): seq<string>
    decreases c, 1
  {
    [c.id] + IdsBelow(order, c)
  }

  function IdsBelow(order: Order, c: SCont): seq<string>
    decreases c, 0
  {
    match c
    case SFork(_, branches, join) => IdsSeq(order, branches) + IdsOpt(order, join)
    case SBranch(_, routes, default, next) =>
      IdsRoutes(order, c, order(routes.Keys)) + (IdsOpt(order, default) + IdsOpt(order, next))
    case SLoop(_, body, _, _, next) => TaskIds(order, body) + IdsOpt(order, next)
    case SChildWorkflow(_, child, next) => TaskIds(order, child) + IdsOpt(order, next)
    case _ => IdsOpt(order, c.next)
  }

  function IdsOpt(order: Order, c: Option<SCont>): seq<string>
    decreases c, 2
  {
    if c.None? then [] else TaskIds(order, c.value)
  }

  function IdsSeq(order: Order, cs: seq<SCont>): seq<string>
    decreases cs, 2
  {
    if cs == [] then [] else TaskIds(order, cs[0]) + IdsSeq(order, cs[1..])
  }

  function IdsRoutes(order: Order, c: SCont, keys: seq<string>): seq<string>
    requires c.SBranch?
    decreases c, 0, |keys|
  {
    if keys == [] then [] else
    (if keys[0] in c.routes then TaskIds(order, c.routes[keys[0]]) else []) + IdsRoutes(order, c, keys[1..])
  }

  // ----- scanning for a repetition -----

  predicate Unique(ids: seq<string>) {
    forall i, j :: 0 <= i < j < |ids| ==> ids[i] != ids[j]
  }

  /** The first id already seen, and the ids seen up to there. */
  function Scan(seen: set<string>, ids: seq<string>): (Option<string>, set<string>)
    decreases |ids|
  {
    if ids == [] then (None, seen)
    else if ids[0] in seen then (Some(ids[0]), seen)
    else Scan(seen + {ids[0]}, ids[1..])
  }

  lemma {:induction false} ScanConcat(seen: set<string>, a: seq<string>, b: seq<string>)
    ensures Scan(seen, a + b) == if Scan(seen, a).0.Some? then Scan(seen, a) else Scan(Scan(seen, a).1, b)
    decreases |a|
  {
    if a == [] {
      assert a + b == b;
    } else {
      assert (a + b)[1..] == a[1..] + b;
      if a[0] !in seen {
        ScanConcat(seen + {a[0]}, a[1..], b);
      }
    }
  }

  /** A scan finds nothing exactly when the ids are new and pairwise distinct. */
  lemma {:induction false} ScanExact(seen: set<string>, ids: seq<string>)
    ensures Scan(seen, ids).0.None? <==> Unique(ids) && forall i :: 0 <= i < |ids| ==> ids[i] !in seen
    ensures Scan(seen, ids).0.Some? ==> Scan(seen, ids).0.value in ids
    ensures Scan(seen, ids).0.Some? && Scan(seen, ids).0.value !in seen ==> multiset(ids)[Scan(seen, ids).0.value] >= 2
    decreases |ids|
  {
    if ids != [] && ids[0] !in seen {
      ScanExact(seen + {ids[0]}, ids[1..]);
      assert ids == [ids[0]] + ids[1..];
      var found := Scan(seen, ids).0;
      if found.Some? && found.value == ids[0] {
        assert ids[0] in ids[1..];
        assert multiset(ids[1..])[ids[0]] >= 1;
      }
      if Unique(ids[1..]) && forall i :: 0 <= i < |ids[1..]| ==> ids[1..][i] !in seen + {ids[0]} {
        forall i, j | 0 <= i < j < |ids| ensures ids[i] != ids[j] {
          assert ids[j] == ids[1..][j - 1];
        }
        forall i | 0 <= i < |ids| ensures ids[i] !in seen {
          assert i > 0 ==> ids[i] == ids[1..][i - 1];
        }
      }
    }
  }

  /** The seen-set that the duplicate search grows as it walks the tree. */
  class SeenIds {
    var seen: set<string>

    constructor ()
      ensures seen == {}
    {
      seen := {};
    }

    /** Walks the tree and stops at the first id that is already in the set. */
    method Collect(order: Order, c: SCont) returns (dup: Option<string>)
      requires Enumerates(order)
      modifies this
      ensures (dup, seen) == Scan(old(seen), TaskIds(order, c))
      decreases c, 1
    {
      if c.id in seen {
        return Some(c.id);
      }
      ScanConcat(seen, [c.id], IdsBelow(order, c));
      seen := seen + {c.id};
      dup := CollectBelow(order, c);
    }

    method CollectBelow(order: Order, c: SCont) returns (dup: Option<string>)
      requires Enumerates(order)
      modifies this
      ensures (dup, seen) == Scan(old(seen), IdsBelow(order, c))
      decreases c, 0
    {
      match c
      case SFork(_, branches, join) =>
        ScanConcat(seen, IdsSeq(order, branches), IdsOpt(order, join));
        dup := CollectSeq(order, branches);
        if dup.None? {
          dup := CollectOpt(order, join);
        }
      case SBranch(_, routes, default, next) =>
        ghost var tail := IdsOpt(order, default) + IdsOpt(order, next);
        ScanConcat(seen, IdsRoutes(order, c, order(routes.Keys)), tail);
        dup := CollectRoutes(order, c);
        if dup.None? {
          ScanConcat(seen, IdsOpt(order, default), IdsOpt(order, next));
          dup := CollectOpt(order, default);
          if dup.None? {
            dup := CollectOpt(order, next);
          }
        }
      case SLoop(_, body, _, _, next) =>
        ScanConcat(seen, TaskIds(order, body), IdsOpt(order, next));
        dup := Collect(order, body);
        if dup.None? {
          dup := CollectOpt(order, next);
        }
      case SChildWorkflow(_, child, next) =>
        ScanConcat(seen, TaskIds(order, child), IdsOpt(order, next));
        dup := Collect(order, child);
        if dup.None? {
          dup := CollectOpt(order, next);
        }
      case _ =>
        dup := CollectOpt(order, c.next);
    }

    method CollectOpt(order: Order, c: Option<SCont>) returns (dup: Option<string>)
      requires Enumerates(order)
      modifies this
      ensures (dup, seen) == Scan(old(seen), IdsOpt(order, c))
      decreases c, 2
    {
      dup := None;
      if c.Some? {
        dup := Collect(order, c.value);
      }
    }

    method CollectSeq(order: Order, cs: seq<SCont>) returns (dup: Option<string>)
      requires Enumerates(order)
      modifies this
      ensures (dup, seen) == Scan(old(seen), IdsSeq(order, cs))
      decreases cs, 2
    {
      dup := None;
      var i := 0;
      while i < |cs| && dup.None?
        invariant 0 <= i <= |cs|
        invariant Scan(old(seen), IdsSeq(order, cs)) ==
          if dup.Some? then (dup, seen) else Scan(seen, IdsSeq(order, cs[i..]))
      {
        assert cs[i..][1..] == cs[i + 1..];
        ScanConcat(seen, TaskIds(order, cs[i]), IdsSeq(order, cs[i + 1..]));
        dup := Collect(order, cs[i]);
        i := i + 1;
      }
    }

    method CollectRoutes(order: Order, c: SCont) returns (dup: Option<string>)
      requires c.SBranch? && Enumerates(order)
      modifies this
      ensures (dup, seen) == Scan(old(seen), IdsRoutes(order, c, order(c.routes.Keys)))
      decreases c, 0, 0
    {
      dup := None;
      var keys := order(c.routes.Keys);
      assert Lists(keys, c.routes.Keys);
      var i := 0;
      while i < |keys| && dup.None?
        invariant 0 <= i <= |keys|
        invariant Scan(old(seen), IdsRoutes(order, c, keys)) ==
          if dup.Some? then (dup, seen) else Scan(seen, IdsRoutes(order, c, keys[i..]))
      {
        assert keys[i..][1..] == keys[i + 1..] && keys[i] in keys;
        ScanConcat(seen, TaskIds(order, c.routes[keys[i]]), IdsRoutes(order, c, keys[i + 1..]));
        dup := Collect(order, c.routes[keys[i]]);
        i := i + 1;
      }
    }
  }

  /** Reports an id that occurs twice, and reports none exactly when all ids are distinct. */
  method FindDuplicateId(order: Order, c: SCont) returns (dup: Option<string>)
    requires Enumerates(order)
    ensures dup == Scan({}, TaskIds(order, c)).0
    ensures dup.None? <==> Unique(TaskIds(order, c))
    ensures dup.Some? ==> multiset(TaskIds(order, c))[dup.value] >= 2
  {
    var ids := new SeenIds();
    dup := ids.Collect(order, c);
    ScanExact({}, TaskIds(order, c));
  }

  // ----- collecting the ids -----

  /** The list that the id collector appends to as it walks the tree. */
  class IdList {
    var ids: seq<string>

    constructor ()
      ensures ids == []
    {
      ids := [];
    }

    method Collect(order: Order, c: SCont)
      requires Enumerates(order)
      modifies this
      ensures ids == old(ids) + TaskIds(order, c)
      decreases c, 1
    {
      ids := ids + [c.id];
      CollectBelow(order, c);
      Regroup(old(ids), [c.id], IdsBelow(order, c));
    }

    method CollectBelow(order: Order, c: SCont)
      requires Enumerates(order)
      modifies this
      ensures ids == old(ids) + IdsBelow(order, c)
      decreases c, 0
    {
      ghost var before := ids;
      match c
      case SFork(_, branches, join) =>
        CollectSeq(order, branches);
        CollectOpt(order, join);
        Regroup(before, IdsSeq(order, branches), IdsOpt(order, join));
      case SBranch(_, routes, default, next) =>
        ghost var first := IdsRoutes(order, c, order(routes.Keys));
        CollectRoutes(order, c);
        CollectOpt(order, default);
        CollectOpt(order, next);
        Regroup(before + first, IdsOpt(order, default), IdsOpt(order, next));
        Regroup(before, first, IdsOpt(order, default) + IdsOpt(order, next));
      case SLoop(_, body, _, _, next) =>
        Collect(order, body);
        CollectOpt(order, next);
        Regroup(before, TaskIds(order, body), IdsOpt(order, next));
      case SChildWorkflow(_, child, next) =>
        Collect(order, child);
        CollectOpt(order, next);
        Regroup(before, TaskIds(order, child), IdsOpt(order, next));
      case _ =>
        CollectOpt(order, c.next);
    }

    method CollectOpt(order: Order, c: Option<SCont>)
      requires Enumerates(order)
      modifies this
      ensures ids == old(ids) + IdsOpt(order, c)
      decreases c, 2
    {
      if c.Some? {
        Collect(order, c.value);
      }
    }

    method CollectSeq(order: Order, cs: seq<SCont>)
      requires Enumerates(order)
      modifies this
      ensures ids == old(ids) + IdsSeq(order, cs)
      decreases cs, 2
    {
      hide TaskIds;
      var i := 0;
      while i < |cs|
        invariant 0 <= i <= |cs|
        invariant ids + IdsSeq(order, cs[i..]) == old(ids) + IdsSeq(order, cs)
      {
        assert cs[i..][1..] == cs[i + 1..];
        Regroup(ids, TaskIds(order, cs[i]), IdsSeq(order, cs[i + 1..]));
        Collect(order, cs[i]);
        i := i + 1;
      }
    }

    method CollectRoutes(order: Order, c: SCont)
      requires c.SBranch? && Enumerates(order)
      modifies this
      ensures ids == old(ids) + IdsRoutes(order, c, order(c.routes.Keys))
      decreases c, 0, 0
    {
      hide TaskIds;
      var keys := order(c.routes.Keys);
      assert Lists(keys, c.routes.Keys);
      var i := 0;
      while i < |keys|
        invariant 0 <= i <= |keys|
        invariant ids + IdsRoutes(order, c, keys[i..]) == old(ids) + IdsRoutes(order, c, keys)
      {
        assert keys[i..][1..] == keys[i + 1..] && keys[i] in keys;
        Regroup(ids, TaskIds(order, c.routes[keys[i]]), IdsRoutes(order, c, keys[i + 1..]));
        Collect(order, c.routes[keys[i]]);
        i := i + 1;
      }
    }
  }

  // ----- the iteration order of the route maps does not matter -----

  lemma {:induction false} UniqueIffBag(ids: seq<string>)
    ensures Unique(ids) <==> forall x :: multiset(ids)[x] <= 1
    decreases |ids|
  {
    if ids != [] {
      UniqueIffBag(ids[1..]);
      assert ids == [ids[0]] + ids[1..];
      assert multiset(ids) == multiset{ids[0]} + multiset(ids[1..]);
      assert Unique(ids) <==> Unique(ids[1..]) && ids[0] !in ids[1..] by {
        UniqueTail(ids);
      }
      if ids[0] in ids[1..] {
        assert multiset(ids[1..])[ids[0]] >= 1 && multiset(ids)[ids[0]] >= 2;
      } else {
        assert multiset(ids[1..])[ids[0]] == 0;
        forall x ensures multiset(ids)[x] == if x == ids[0] then 1 else multiset(ids[1..])[x] {
        }
      }
    }
  }

  lemma UniqueTail(ids: seq<string>)
    requires ids != []
    ensures Unique(ids) <==> Unique(ids[1..]) && ids[0] !in ids[1..]
  {
    forall j | 0 < j < |ids| ensures ids[j] == ids[1..][j - 1] {
    }
    if Unique(ids[1..]) && ids[0] !in ids[1..] {
      forall i, j | 0 <= i < j < |ids| ensures ids[i] != ids[j] {
        assert ids[j] == ids[1..][j - 1] && (i > 0 ==> ids[i] == ids[1..][i - 1]);
      }
    }
  }

  lemma {:induction false} SameBag(o: Order, o': Order, c: SCont)
    requires Enumerates(o) && Enumerates(o')
    ensures multiset(TaskIds(o, c)) == multiset(TaskIds(o', c))
    decreases c, 1
  {
    match c
    case SFork(_, branches, join) =>
      SameBagSeq(o, o', branches);
      SameBagOpt(o, o', join);
    case SBranch(_, routes, default, next) =>
      SameBagOpt(o, o', default);
      SameBagOpt(o, o', next);
      assert Lists(o(routes.Keys), routes.Keys) && Lists(o'(routes.Keys), routes.Keys);
      SameBagRoutes(o, o', c, o(routes.Keys));
      Permute(o', c, o(routes.Keys), o'(routes.Keys), routes.Keys);
    case SLoop(_, body, _, _, next) =>
      SameBag(o, o', body);
      SameBagOpt(o, o', next);
    case SChildWorkflow(_, child, next) =>
      SameBag(o, o', child);
      SameBagOpt(o, o', next);
    case _ => SameBagOpt(o, o', c.next);
  }

  lemma {:induction false} SameBagOpt(o: Order, o': Order, c: Option<SCont>)
    requires Enumerates(o) && Enumerates(o')
    ensures multiset(IdsOpt(o, c)) == multiset(IdsOpt(o', c))
    decreases c, 2
  {
    if c.Some? {
      SameBag(o, o', c.value);
    }
  }

  lemma {:induction false} SameBagSeq(o: Order, o': Order, cs: seq<SCont>)
    requires Enumerates(o) && Enumerates(o')
    ensures multiset(IdsSeq(o, cs)) == multiset(IdsSeq(o', cs))
    decreases cs, 2
  {
    if cs != [] {
      SameBag(o, o', cs[0]);
      SameBagSeq(o, o', cs[1..]);
    }
  }

  lemma {:induction false} SameBagRoutes(o: Order, o': Order, c: SCont, keys: seq<string>)
    requires Enumerates(o) && Enumerates(o') && c.SBranch?
    ensures multiset(IdsRoutes(o, c, keys)) == multiset(IdsRoutes(o', c, keys))
    decreases c, 0, |keys|
  {
    if keys != [] {
      SameBagRoutes(o, o', c, keys[1..]);
      if keys[0] in c.routes {
        SameBag(o, o', c.routes[keys[0]]);
      }
    }
  }

  function RouteBag(o: Order, c: SCont, k: string): multiset<string>
    requires c.SBranch?
  {
    if k in c.routes then multiset(TaskIds(o, c.routes[k])) else multiset{}
  }

  lemma FrontKey(o: Order, c: SCont, k: string, rest: seq<string>)
    requires c.SBranch?
    ensures multiset(IdsRoutes(o, c, [k] + rest)) == RouteBag(o, c, k) + multiset(IdsRoutes(o, c, rest))
  {
    hide TaskIds;
    assert ([k] + rest)[1..] == rest;
  }

  /** Moving one key to the front keeps the ids. */
  lemma {:induction false} KeyToFront(o: Order, c: SCont, ks: seq<string>, i: nat)
    requires c.SBranch? && i < |ks|
    ensures multiset(IdsRoutes(o, c, ks)) == RouteBag(o, c, ks[i]) + multiset(IdsRoutes(o, c, ks[..i] + ks[i + 1..]))
    decreases |ks|
  {
    hide IdsRoutes, RouteBag;
    FrontKey(o, c, ks[0], ks[1..]);
    assert ks == [ks[0]] + ks[1..];
    if i == 0 {
      assert ks[..0] + ks[1..] == ks[1..];
    } else {
      KeyToFront(o, c, ks[1..], i - 1);
      var rest := ks[1..][..i - 1] + ks[1..][i..];
      assert ks[..i] + ks[i + 1..] == [ks[0]] + rest;
      FrontKey(o, c, ks[0], rest);
    }
  }

  lemma {:induction false} Permute(o: Order, c: SCont, ks: seq<string>, ls: seq<string>, keys: set<string>)
    requires c.SBranch? && Lists(ks, keys) && Lists(ls, keys)
    ensures multiset(IdsRoutes(o, c, ks)) == multiset(IdsRoutes(o, c, ls))
    decreases |ks|
  {
    assert forall k :: k in ls ==> k in ks;
    assert ls == [] || ls[0] in ks;
    if ks != [] {
      assert ks[0] in ks;
      var i :| 0 <= i < |ls| && ls[i] == ks[0];
      KeyToFront(o, c, ls, i);
      var rest := ls[..i] + ls[i + 1..];
      ListsWithout(ks, 0, keys);
      ListsWithout(ls, i, keys);
      assert ks[..0] + ks[1..] == ks[1..];
      Permute(o, c, ks[1..], rest, keys - {ks[0]});
      KeyToFront(o, c, ks, 0);
    }
  }

  lemma ListsWithout(ks: seq<string>, i: nat, keys: set<string>)
    requires Lists(ks, keys) && i < |ks|
    ensures Lists(ks[..i] + ks[i + 1..], keys - {ks[i]})
  {
    var rest := ks[..i] + ks[i + 1..];
    forall j | 0 <= j < |rest| ensures rest[j] == if j < i then ks[j] else ks[j + 1] {
    }
    forall k | k in keys - {ks[i]} ensures k in rest {
      var j :| 0 <= j < |ks| && ks[j] == k;
      assert rest[if j < i then j else j - 1] == k;
    }
  }

  /** Whether a duplicate is reported does not depend on the iteration order. */
  lemma VerdictIgnoresOrder(o: Order, o': Order, c: SCont)
    requires Enumerates(o) && Enumerates(o')
    ensures Unique(TaskIds(o, c)) <==> Unique(TaskIds(o', c))
  {
    SameBag(o, o', c);
    UniqueIffBag(TaskIds(o, c));
    UniqueIffBag(TaskIds(o', c));
  }
}
