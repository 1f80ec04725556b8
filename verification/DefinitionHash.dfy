/**
 The definition hash: the hasher is fed exactly the text of the tree, and that text identifies the
 definition whatever order the route maps are iterated in.
 */
module DefinitionHash {
  import opened Prelude
  import opened Continuation
  import opened Keys
  import opened Serial
  import opened Definition

  // ----- equal essence, equal text -----

  /** The text depends on the essence alone, and not on the iteration order of any map. */
  lemma {:induction false} SameText(o: Order, o': Order, c: SCont, d: SCont, rest: string)
    requires Enumerates(o) && Enumerates(o') && Essence(c) == Essence(d)
    ensures Text(o, c, rest) == Text(o', d, rest)
    decreases c, 2
  {
    match c
    case STask(_, _, _, _, _, _, next) => SameTextOpt(o, o', next, d.next, rest);
    case SFork(_, branches, join) =>
      if join.Some? {
        SameText(o, o', join.value, d.join.value, rest);
      }
      var tail := "]" + if join.Some? then "J:" + Text(o, join.value, rest) else rest;
      SameBranchesText(o, o', branches, d.branches, tail);
    case SDelay(_, _, next) => SameTextOpt(o, o', next, d.next, rest);
    case SAwaitSignal(_, _, _, next) => SameTextOpt(o, o', next, d.next, rest);
    case SBranch(_, routes, default, next) => SameBranchText(o, o', c, d, rest);
    case SLoop(_, body, _, _, next) =>
      SameTextOpt(o, o', next, d.next, rest);
      SameText(o, o', body, d.body, "}" + (";" + TextOpt(o, next, rest)));
    case SChildWorkflow(_, child, next) =>
      SameTextOpt(o, o', next, d.next, rest);
      SameText(o, o', child, d.child, "}" + (";" + TextOpt(o, next, rest)));
  }

  lemma {:induction false} SameTextOpt(o: Order, o': Order, c: Option<SCont>, d: Option<SCont>, rest: string)
    requires Enumerates(o) && Enumerates(o') && EssenceOpt(c) == EssenceOpt(d)
    ensures TextOpt(o, c, rest) == TextOpt(o', d, rest) && DefaultText(o, c, rest) == DefaultText(o', d, rest)
    decreases c, 3
  {
    if c.Some? {
      SameText(o, o', c.value, d.value, rest);
    }
  }

  lemma {:induction false} SameBranchesText(o: Order, o': Order, bs: seq<SCont>, cs: seq<SCont>, rest: string)
    requires Enumerates(o) && Enumerates(o') && EssenceSeq(bs) == EssenceSeq(cs)
    ensures BranchesText(o, bs, rest) == BranchesText(o', cs, rest)
    decreases bs, 3
  {
    if bs != [] {
      assert EssenceSeq(bs)[0] == EssenceSeq(cs)[0] && EssenceSeq(bs)[1..] == EssenceSeq(cs)[1..];
      SameBranchesText(o, o', bs[1..], cs[1..], rest);
      SameText(o, o', bs[0], cs[0], "," + BranchesText(o, bs[1..], rest));
    }
  }

  lemma {:induction false} SameBranchText(o: Order, o': Order, c: SCont, d: SCont, rest: string)
    requires Enumerates(o) && Enumerates(o') && c.SBranch? && Essence(c) == Essence(d)
    ensures Text(o, c, rest) == Text(o', d, rest)
    decreases c, 1
  {
    RoutesOfEssence(c, d);
    SortedKeysUnique(o, o', c.routes.Keys);
    hide Enumerates, SortedKeys;
    SameTextOpt(o, o', c.next, d.next, rest);
    SameTextOpt(o, o', c.default, d.default, ";" + TextOpt(o, c.next, rest));
    var tail := "}" + DefaultText(o, c.default, ";" + TextOpt(o, c.next, rest));
    SameRoutesText(o, o', c, d, SortedKeys(o, c.routes.Keys), tail);
  }

  lemma RoutesOfEssence(c: SCont, d: SCont)
    requires c.SBranch? && Essence(c) == Essence(d)
    ensures d.SBranch? && c.routes.Keys == d.routes.Keys
    ensures forall k :: k in c.routes ==> Essence(c.routes[k]) == Essence(d.routes[k])
  {
    assert EssenceRoutes(c) == EssenceRoutes(d);
    hide Essence;
    assert c.routes.Keys == EssenceRoutes(c).Keys && d.routes.Keys == EssenceRoutes(d).Keys;
    forall k | k in c.routes ensures Essence(c.routes[k]) == Essence(d.routes[k]) {
      assert EssenceRoutes(c)[k] == EssenceRoutes(d)[k];
    }
  }

  lemma {:induction false} SameRoutesText(o: Order, o': Order, c: SCont, d: SCont, keys: seq<string>, rest: string)
    requires Enumerates(o) && Enumerates(o') && c.SBranch? && d.SBranch? && c.routes.Keys == d.routes.Keys
    requires forall k :: k in c.routes ==> Essence(c.routes[k]) == Essence(d.routes[k])
    ensures RoutesText(o, c, keys, rest) == RoutesText(o', d, keys, rest)
    decreases c, 0, |keys|
  {
    if keys != [] {
      SameRoutesText(o, o', c, d, keys[1..], rest);
      var tail := "," + RoutesText(o, c, keys[1..], rest);
      if keys[0] in c.routes {
        SameText(o, o', c.routes[keys[0]], d.routes[keys[0]], tail);
      }
    }
  }

  // ----- what it means to have the same definition -----

  predicate AlikeRetry(a: Option<RetryPolicy>, b: Option<RetryPolicy>) {
    && a.Some? == b.Some?
    && (a.Some? ==>
          && a.value.maxRetries == b.value.maxRetries && a.value.backoff == b.value.backoff
          && a.value.initialDelay / 1_000_000 == b.value.initialDelay / 1_000_000)
  }

  /**
   The same definition: equal ids, structure, timeouts, retry counts, delays and factors, versions, signal
   names, routes, loop limits and policies. Priorities, tags and the retry delay cap may differ.
   */
  predicate Alike(c: SCont, d: SCont)
    decreases c, 0
  {
    && c.id == d.id && AlikeOpt(SNext(c), SNext(d))
    && match c
       case STask(_, timeout, retry, version, _, _, _) =>
         d.STask? && d.timeoutMs == timeout && AlikeRetry(retry, d.retry) && d.version == version
       case SFork(_, branches, _) => d.SFork? && AlikeSeq(branches, d.branches)
       case SDelay(_, ms, _) => d.SDelay? && d.durationMs == ms
       case SAwaitSignal(_, name, timeout, _) => d.SAwaitSignal? && d.signalName == name && d.timeoutMs == timeout
       case SBranch(_, routes, default, _) =>
         && d.SBranch? && d.routes.Keys == routes.Keys && AlikeOpt(default, d.default)
         && forall k :: k in routes ==> k in d.routes && Alike(routes[k], d.routes[k])
       case SLoop(_, body, max, onMax, _) =>
         d.SLoop? && d.maxIterations == max && d.onMax == onMax && Alike(body, d.body)
       case SChildWorkflow(_, child, _) => d.SChildWorkflow? && Alike(child, d.child)
  }

  predicate AlikeOpt(c: Option<SCont>, d: Option<SCont>)
    decreases c, 1
  {
    c.Some? == d.Some? && (c.Some? ==> Alike(c.value, d.value))
  }

  predicate AlikeSeq(cs: seq<SCont>, ds: seq<SCont>)
    decreases cs, 1
  {
    |cs| == |ds| && (cs != [] ==> Alike(cs[0], ds[0]) && AlikeSeq(cs[1..], ds[1..]))
  }

  /** Trees are alike exactly when their covered parts are equal. */
  lemma {:induction false} EssenceAlike(c: SCont, d: SCont)
    ensures Essence(c) == Essence(d) <==> Alike(c, d)
    decreases c, 1
  {
    if SNext(c).Some? && SNext(d).Some? {
      EssenceAlike(SNext(c).value, SNext(d).value);
    }
    match c
    case SFork(_, branches, _) =>
      if d.SFork? {
        SeqAlike(branches, d.branches);
      }
    case SBranch(_, _, _, _) =>
      if d.SBranch? {
        BranchAlike(c, d);
      }
    case SLoop(_, body, _, _, _) =>
      if d.SLoop? {
        EssenceAlike(body, d.body);
      }
    case SChildWorkflow(_, child, _) =>
      if d.SChildWorkflow? {
        EssenceAlike(child, d.child);
      }
    case _ =>
  }

  lemma {:induction false} SeqAlike(cs: seq<SCont>, ds: seq<SCont>)
    ensures EssenceSeq(cs) == EssenceSeq(ds) <==> AlikeSeq(cs, ds)
    decreases cs, 2
  {
    EssenceLength(cs);
    EssenceLength(ds);
    if cs != [] && ds != [] {
      EssenceAlike(cs[0], ds[0]);
      SeqAlike(cs[1..], ds[1..]);
      assert EssenceSeq(cs)[0] == Essence(cs[0]) && EssenceSeq(cs)[1..] == EssenceSeq(cs[1..]);
      assert EssenceSeq(ds)[0] == Essence(ds[0]) && EssenceSeq(ds)[1..] == EssenceSeq(ds[1..]);
    }
  }

  lemma {:induction false} EssenceLength(cs: seq<SCont>)
    ensures |EssenceSeq(cs)| == |cs|
  {
    if cs != [] {
      EssenceLength(cs[1..]);
    }
  }

  lemma {:induction false} BranchAlike(c: SCont, d: SCont)
    requires c.SBranch? && d.SBranch?
    ensures EssenceOpt(c.default) == EssenceOpt(d.default) <==> AlikeOpt(c.default, d.default)
    ensures EssenceRoutes(c) == EssenceRoutes(d) <==>
      c.routes.Keys == d.routes.Keys && forall k :: k in c.routes ==> k in d.routes && Alike(c.routes[k], d.routes[k])
    decreases c, 0
  {
    if c.default.Some? && d.default.Some? {
      EssenceAlike(c.default.value, d.default.value);
    }
    forall k | k in c.routes && k in d.routes
      ensures Essence(c.routes[k]) == Essence(d.routes[k]) <==> Alike(c.routes[k], d.routes[k])
    {
      EssenceAlike(c.routes[k], d.routes[k]);
    }
    hide Essence, Alike;
    var a, b := EssenceRoutes(c), EssenceRoutes(d);
    assert a.Keys == c.routes.Keys && b.Keys == d.routes.Keys;
    if a == b {
      forall k | k in c.routes ensures k in d.routes && Alike(c.routes[k], d.routes[k]) {
        assert k in a && a[k] == b[k];
      }
    }
  }

  // ----- the text identifies the definition -----

  /**
   For trees whose names avoid the delimiters, what is hashed is equal exactly when the trees have the same
   definition.
   */
  lemma TextIdentifiesDefinition(o: Order, o': Order, c: SCont, d: SCont)
    requires Enumerates(o) && Enumerates(o') && Clean(c) && Clean(d)
    ensures Text(o, c, "") == Text(o', d, "") <==> Alike(c, d)
    ensures Alike(c, d) <==> Essence(c) == Essence(d)
  {
    EssenceAlike(c, d);
    if Text(o, c, "") == Text(o', d, "") {
      Read(o, o', c, "", d, "");
    }
    if Essence(c) == Essence(d) {
      SameText(o, o', c, d, "");
    }
  }

  /** Without that restriction it fails: an id may spell out a second task. */
  lemma DelimitersInIdsCollide(o: Order)
    ensures
      var one := STask("a;T:b", None, None, None, None, [], None);
      var two := STask("a", None, None, None, None, [], Some(STask("b", None, None, None, None, [], None)));
      Text(o, one, "") == Text(o, two, "") && Essence(one) != Essence(two) && Clean(two) && !Clean(one)
  {
    var one := STask("a;T:b", None, None, None, None, [], None);
    var last := STask("b", None, None, None, None, [], None);
    var two := STask("a", None, None, None, None, [], Some(last));
    assert Text(o, last, "") == "T:b;";
    assert Text(o, two, "") == "T:a;T:b;";
    assert Text(o, one, "") == "T:a;T:b;";
    assert one.id[1] == ';' && !Avoids(one.id, {':', ';'});
  }

  // ----- feeding the hasher -----

  /**
   The bytes fed to the digest so far. `rest` stands for what the caller goes on to feed, so that each
   step says how it extends the text in front of it.
   */
  class Hasher {
    var fed: string

    constructor ()
      ensures fed == ""
    {
      fed := "";
    }

    method Update(s: string, ghost rest: string)
      modifies this
      ensures fed == old(fed) + s && fed + rest == old(fed) + (s + rest)
    {
      fed := fed + s;
    }

    method UpdateTimeout(t: Option<U64>, ghost rest: string)
      modifies this
      ensures fed + rest == old(fed) + TimeoutText(t, rest)
    {
      if t.Some? {
        Update(":t:", Digits(t.value) + rest);
        Update(Digits(t.value), rest);
      }
    }

    method UpdateRetry(r: Option<RetryPolicy>, ghost rest: string)
      modifies this
      ensures fed + rest == old(fed) + RetryText(r, rest)
    {
      if r.Some? {
        var p := r.value;
        var delay := Digits(p.initialDelay / 1_000_000);
        Update(":r:", Digits(p.maxRetries) + (":" + (delay + (":" + (p.backoff + rest)))));
        Update(Digits(p.maxRetries), ":" + (delay + (":" + (p.backoff + rest))));
        Update(":", delay + (":" + (p.backoff + rest)));
        Update(delay, ":" + (p.backoff + rest));
        Update(":", p.backoff + rest);
        Update(p.backoff, rest);
      }
    }

    method UpdateVersion(v: Option<string>, ghost rest: string)
      modifies this
      ensures fed + rest == old(fed) + VersionText(v, rest)
    {
      if v.Some? {
        Update(":v:", v.value + rest);
        Update(v.value, rest);
      }
    }

    /** Feeds the tree: what was fed, followed by its text. */
    method HashContinuation(order: Order, c: SCont, ghost rest: string)
      modifies this
      ensures fed + rest == old(fed) + Text(order, c, rest)
      decreases c, 2
    {
      match c
      case STask(id, timeout, retry, version, _, _, next) =>
        ghost var r0 := ";" + TextOpt(order, next, rest);
        ghost var r1 := VersionText(version, r0);
        ghost var r2 := RetryText(retry, r1);
        ghost var r3 := TimeoutText(timeout, r2);
        Update("T:", id + r3);
        Update(id, r3);
        UpdateTimeout(timeout, r2);
        UpdateRetry(retry, r1);
        UpdateVersion(version, r0);
        HashNext(order, next, rest);
      case SFork(id, branches, join) => HashFork(order, c, rest);
      case SDelay(id, ms, next) =>
        ghost var r0 := ";" + TextOpt(order, next, rest);
        Update("D:", id + (":" + (Digits(ms) + r0)));
        Update(id, ":" + (Digits(ms) + r0));
        Update(":", Digits(ms) + r0);
        Update(Digits(ms), r0);
        HashNext(order, next, rest);
      case SAwaitSignal(id, name, timeout, next) =>
        ghost var r0 := ";" + TextOpt(order, next, rest);
        ghost var r1 := TimeoutText(timeout, r0);
        Update("S:", id + (":" + (name + r1)));
        Update(id, ":" + (name + r1));
        Update(":", name + r1);
        Update(name, r1);
        UpdateTimeout(timeout, r0);
        HashNext(order, next, rest);
      case SBranch(_, _, _, _) => HashBranch(order, c, rest);
      case SLoop(id, body, max, onMax, next) =>
        ghost var r0 := ";" + TextOpt(order, next, rest);
        ghost var r1 := Text(order, body, "}" + r0);
        Update("L:", id + (":" + (Digits(max) + (":" + (OnMaxText(onMax) + ("{" + r1))))));
        Update(id, ":" + (Digits(max) + (":" + (OnMaxText(onMax) + ("{" + r1)))));
        Update(":", Digits(max) + (":" + (OnMaxText(onMax) + ("{" + r1))));
        Update(Digits(max), ":" + (OnMaxText(onMax) + ("{" + r1)));
        Update(":", OnMaxText(onMax) + ("{" + r1));
        Update(OnMaxText(onMax), "{" + r1);
        Update("{", r1);
        HashContinuation(order, body, "}" + r0);
        Update("}", r0);
        HashNext(order, next, rest);
      case SChildWorkflow(id, child, next) =>
        ghost var r0 := ";" + TextOpt(order, next, rest);
        ghost var r1 := Text(order, child, "}" + r0);
        Update("CW:", id + ("{" + r1));
        Update(id, "{" + r1);
        Update("{", r1);
        HashContinuation(order, child, "}" + r0);
        Update("}", r0);
        HashNext(order, next, rest);
    }

    /** The semicolon that ends a node, and the rest of its chain. */
    method HashNext(order: Order, next: Option<SCont>, ghost rest: string)
      modifies this
      ensures fed + rest == old(fed) + (";" + TextOpt(order, next, rest))
      decreases next, 3
    {
      Update(";", TextOpt(order, next, rest));
      if next.Some? {
        HashContinuation(order, next.value, rest);
      }
    }

    method HashFork(order: Order, c: SCont, ghost rest: string)
      requires c.SFork?
      modifies this
      ensures fed + rest == old(fed) + Text(order, c, rest)
      decreases c, 1
    {
      ghost var r0 := if c.join.Some? then "J:" + Text(order, c.join.value, rest) else rest;
      ghost var r1 := BranchesText(order, c.branches, "]" + r0);
      Update("F:", c.id + ("[" + r1));
      Update(c.id, "[" + r1);
      Update("[", r1);
      ghost var before := fed;
      var i := 0;
      while i < |c.branches|
        invariant 0 <= i <= |c.branches|
        invariant fed + BranchesText(order, c.branches[i..], "]" + r0) == before + r1
      {
        ghost var r2 := BranchesText(order, c.branches[i + 1..], "]" + r0);
        assert c.branches[i..][1..] == c.branches[i + 1..];
        HashContinuation(order, c.branches[i], "," + r2);
        Update(",", r2);
        i := i + 1;
      }
      Update("]", r0);
      if c.join.Some? {
        Update("J:", Text(order, c.join.value, rest));
        HashContinuation(order, c.join.value, rest);
      }
    }

    method HashBranch(order: Order, c: SCont, ghost rest: string)
      requires c.SBranch?
      modifies this
      ensures fed + rest == old(fed) + Text(order, c, rest)
      decreases c, 1
    {
      var keys := SortedKeys(order, c.routes.Keys);
      ghost var r0 := ";" + TextOpt(order, c.next, rest);
      ghost var r1 := DefaultText(order, c.default, r0);
      ghost var r2 := RoutesText(order, c, keys, "}" + r1);
      Update("B:", c.id + ("{" + r2));
      Update(c.id, "{" + r2);
      Update("{", r2);
      ghost var before := fed;
      var i := 0;
      while i < |keys|
        invariant 0 <= i <= |keys|
        invariant fed + RoutesText(order, c, keys[i..], "}" + r1) == before + r2
      {
        ghost var tail := RoutesText(order, c, keys[i + 1..], "}" + r1);
        assert keys[i..][1..] == keys[i + 1..];
        if keys[i] in c.routes {
          Update(keys[i], "=>" + Text(order, c.routes[keys[i]], "," + tail));
          Update("=>", Text(order, c.routes[keys[i]], "," + tail));
          HashContinuation(order, c.routes[keys[i]], "," + tail);
        } else {
          Update(keys[i], "=>" + ("," + tail));
          Update("=>", "," + tail);
        }
        Update(",", tail);
        i := i + 1;
      }
      Update("}", r1);
      if c.default.Some? {
        Update("_=>", Text(order, c.default.value, r0));
        HashContinuation(order, c.default.value, r0);
      }
      HashNext(order, c.next, rest);
    }
  }

  /** The digest of the definition text. */
  method ComputeDefinitionHash<H>(order: Order, c: SCont, digest: string -> H) returns (hash: H)
    ensures hash == digest(Text(order, c, ""))
  {
    var hasher := new Hasher();
    hasher.HashContinuation(order, c, "");
    assert hasher.fed + "" == hasher.fed && "" + Text(order, c, "") == Text(order, c, "");
    hash := digest(hasher.fed);
  }
}
