/**
 Serializing a tree drops its functions; rehydrating looks them up again. A rehydrated tree has the
 definition that was stored and computes what the original computed.
 */
module Rehydration {
  import opened Prelude
  import opened Continuation
  import opened Keys
  import opened Serial
  import opened Identifiers

  type Registry = map<string, Func>

  datatype RehydrateError = DuplicateTaskId(id: string) | TaskNotFound(id: string)

  // ----- to the serializable form -----

  function ToSerializable(c: Cont): SCont
    decreases c, 1
  {
    match c
    case Task(id, _, m, next) =>
      STask(id, MillisOpt(m.timeout), m.retry, m.version, m.priority, m.tags, SerializeOpt(next))
    case Fork(id, branches, join) => SFork(id, SerializeSeq(branches), SerializeOpt(join))
    case Delay(id, duration, next) => SDelay(id, Millis(duration), SerializeOpt(next))
    case AwaitSignal(id, name, timeout, next) => SAwaitSignal(id, name, MillisOpt(timeout), SerializeOpt(next))
    case Branch(id, _, routes, default, next) =>
      SBranch(id, SerializeRoutes(c), SerializeOpt(default), SerializeOpt(next))
    case Loop(id, body, max, onMax, next) => SLoop(id, ToSerializable(body), max, onMax, SerializeOpt(next))
    case ChildWorkflow(id, child, next) => SChildWorkflow(id, ToSerializable(child), SerializeOpt(next))
  }

  function SerializeOpt(c: Option<Cont>): Option<SCont>
    decreases c, 2
  {
    if c.None? then None else Some(ToSerializable(c.value))
  }

  function SerializeSeq(cs: seq<Cont>): seq<SCont>
    decreases cs, 2
  {
    if cs == [] then [] else [ToSerializable(cs[0])] + SerializeSeq(cs[1..])
  }

  function SerializeRoutes(c: Cont): map<string, SCont>
    requires c.Branch?
    decreases c, 0
  {
    map k | k in c.routes :: ToSerializable(c.routes[k])
  }

  // ----- back to a runnable tree -----

  /** The whole conversion: a duplicate id is refused before any lookup. */
  function ToRunnable(order: Order, reg: Registry, s: SCont): Result<Cont, RehydrateError> {
    var dup := Scan({}, TaskIds(order, s)).0;
    if dup.Some? then Err(DuplicateTaskId(dup.value)) else Build(order, reg, s)
  }

  function Build(order: Order, reg: Registry, s: SCont): Result<Cont, RehydrateError>
    decreases s, 1
  {
    match s
    case STask(id, timeout, retry, version, priority, tags, next) =>
      if id !in reg then Err(TaskNotFound(id)) else
      var n := BuildOpt(order, reg, next);
      if n.Err? then Err(n.error) else
      Ok(Task(id, Some(reg[id]), TaskMeta(NanosOpt(timeout), retry, version, priority, tags), n.value))
    case SFork(id, branches, join) =>
      // A failing join is reported before a failing branch.
      var bs, j := BuildSeq(order, reg, branches), BuildOpt(order, reg, join);
      if j.Err? then Err(j.error) else if bs.Err? then Err(bs.error) else Ok(Fork(id, bs.value, j.value))
    case SDelay(id, ms, next) =>
      var n := BuildOpt(order, reg, next);
      if n.Err? then Err(n.error) else Ok(Delay(id, ms * 1_000_000, n.value))
    case SAwaitSignal(id, name, timeout, next) =>
      var n := BuildOpt(order, reg, next);
      if n.Err? then Err(n.error) else Ok(AwaitSignal(id, name, NanosOpt(timeout), n.value))
    case SBranch(id, routes, default, next) => BuildBranch(order, reg, s)
    case SLoop(id, body, max, onMax, next) =>
      var b := Build(order, reg, body);
      if b.Err? then b else
      var n := BuildOpt(order, reg, next);
      if n.Err? then Err(n.error) else Ok(Loop(id, b.value, max, onMax, n.value))
    case SChildWorkflow(id, child, next) =>
      var b := Build(order, reg, child);
      if b.Err? then b else
      var n := BuildOpt(order, reg, next);
      if n.Err? then Err(n.error) else Ok(ChildWorkflow(id, b.value, n.value))
  }

  function BuildBranch(order: Order, reg: Registry, s: SCont): Result<Cont, RehydrateError>
    requires s.SBranch?
    decreases s, 0
  {
    if KeyFnId(s.id) !in reg then Err(TaskNotFound(KeyFnId(s.id))) else
    var rs := BuildRoutes(order, reg, s, order(s.routes.Keys));
    var d := BuildOpt(order, reg, s.default);
    if d.Err? then Err(d.error) else
    var n := BuildOpt(order, reg, s.next);
    if n.Err? then Err(n.error) else if rs.Err? then Err(rs.error) else
    Ok(Branch(s.id, Some(reg[KeyFnId(s.id)]), rs.value, d.value, n.value))
  }

  function BuildOpt(order: Order, reg: Registry, s: Option<SCont>): Result<Option<Cont>, RehydrateError>
    decreases s, 2
  {
    if s.None? then Ok(None) else
    var c := Build(order, reg, s.value);
    if c.Err? then Err(c.error) else Ok(Some(c.value))
  }

  /** The first failing branch is reported. */
  function BuildSeq(order: Order, reg: Registry, ss: seq<SCont>): Result<seq<Cont>, RehydrateError>
    decreases ss, 2
  {
    if ss == [] then Ok([]) else
    var c := Build(order, reg, ss[0]);
    if c.Err? then Err(c.error) else
    var rest := BuildSeq(order, reg, ss[1..]);
    if rest.Err? then rest else Ok([c.value] + rest.value)
  }

  function BuildRoutes(
      order: Order, reg: Registry, s: SCont, keys: seq<string>): Result<map<string, Cont>, RehydrateError>
    requires s.SBranch?
    decreases s, 0, |keys|
  {
    if keys == [] then Ok(map[])
    else if keys[0] !in s.routes then BuildRoutes(order, reg, s, keys[1..])
    else
      var c := Build(order, reg, s.routes[keys[0]]);
      if c.Err? then Err(c.error) else
      var rest := BuildRoutes(order, reg, s, keys[1..]);
      if rest.Err? then rest else Ok(rest.value[keys[0] := c.value])
  }

  // ----- what must be registered -----

  /** Every task id and every branch's key-function id is registered. */
  predicate Registered(reg: Registry, s: SCont)
    decreases s, 0
  {
    match s
    case STask(id, _, _, _, _, _, next) => id in reg && RegisteredOpt(reg, next)
    case SFork(_, branches, join) => (forall b :: b in branches ==> Registered(reg, b)) && RegisteredOpt(reg, join)
    case SBranch(id, routes, default, next) =>
      && KeyFnId(id) in reg && (forall k :: k in routes ==> Registered(reg, routes[k]))
      && RegisteredOpt(reg, default) && RegisteredOpt(reg, next)
    case SLoop(_, body, _, _, next) => Registered(reg, body) && RegisteredOpt(reg, next)
    case SChildWorkflow(_, child, next) => Registered(reg, child) && RegisteredOpt(reg, next)
    case _ => RegisteredOpt(reg, s.next)
  }

  predicate RegisteredOpt(reg: Registry, s: Option<SCont>)
    decreases s, 1
  {
    s.Some? ==> Registered(reg, s.value)
  }

  predicate WholeMillis(nanos: nat) {
    nanos % 1_000_000 == 0 && nanos < 1_000_000 * 0x1_0000_0000_0000_0000
  }

  predicate WholeOpt(nanos: Option<nat>) {
    nanos.Some? ==> WholeMillis(nanos.value)
  }

  /**
   Every function in the tree is the one its name is registered for and, if `whole`, all durations and
   timeouts are whole milliseconds that fit 64 bits.
   */
  predicate Wired(reg: Registry, c: Cont, whole: bool)
    decreases c, 0
  {
    match c
    case Task(id, func, m, next) =>
      && id in reg && func == Some(reg[id]) && (whole ==> WholeOpt(m.timeout))
      && WiredOpt(reg, next, whole)
    case Fork(_, branches, join) =>
      (forall b :: b in branches ==> Wired(reg, b, whole)) && WiredOpt(reg, join, whole)
    case Delay(_, duration, next) => (whole ==> WholeMillis(duration)) && WiredOpt(reg, next, whole)
    case AwaitSignal(_, _, timeout, next) => (whole ==> WholeOpt(timeout)) && WiredOpt(reg, next, whole)
    case Branch(id, keyFn, routes, default, next) =>
      && KeyFnId(id) in reg && keyFn == Some(reg[KeyFnId(id)])
      && (forall k :: k in routes ==> Wired(reg, routes[k], whole))
      && WiredOpt(reg, default, whole) && WiredOpt(reg, next, whole)
    case Loop(_, body, _, _, next) => Wired(reg, body, whole) && WiredOpt(reg, next, whole)
    case ChildWorkflow(_, child, next) => Wired(reg, child, whole) && WiredOpt(reg, next, whole)
  }

  predicate WiredOpt(reg: Registry, c: Option<Cont>, whole: bool)
    decreases c, 1
  {
    c.Some? ==> Wired(reg, c.value, whole)
  }

  // ----- exactness and round trip -----

  /** What building achieves: it succeeds exactly on registered trees, and is undone by serializing. */
  ghost predicate Rebuilt(reg: Registry, s: SCont, r: Result<Cont, RehydrateError>) {
    (r.Ok? <==> Registered(reg, s)) && (r.Ok? ==> ToSerializable(r.value) == s && Wired(reg, r.value, false))
  }

  ghost predicate RebuiltOpt(reg: Registry, s: Option<SCont>, r: Result<Option<Cont>, RehydrateError>) {
    (r.Ok? <==> RegisteredOpt(reg, s)) && (r.Ok? ==> SerializeOpt(r.value) == s && WiredOpt(reg, r.value, false))
  }

  lemma {:induction false} BuildExact(order: Order, reg: Registry, s: SCont)
    requires Enumerates(order)
    ensures Rebuilt(reg, s, Build(order, reg, s))
    decreases s, 1
  {
    match s
    case STask(_, timeout, _, _, _, _, next) =>
      BuildOptExact(order, reg, next);
    case SFork(_, branches, join) =>
      BuildSeqExact(order, reg, branches);
      BuildOptExact(order, reg, join);
    case SDelay(_, ms, next) =>
      BuildOptExact(order, reg, next);
    case SAwaitSignal(_, _, timeout, next) =>
      BuildOptExact(order, reg, next);
    case SBranch(_, _, _, _) => BuildBranchExact(order, reg, s);
    case SLoop(_, body, _, _, next) =>
      BuildExact(order, reg, body);
      BuildOptExact(order, reg, next);
    case SChildWorkflow(_, child, next) =>
      BuildExact(order, reg, child);
      BuildOptExact(order, reg, next);
  }

  lemma {:induction false} BuildOptExact(order: Order, reg: Registry, s: Option<SCont>)
    requires Enumerates(order)
    ensures RebuiltOpt(reg, s, BuildOpt(order, reg, s))
    decreases s, 2
  {
    if s.Some? {
      BuildExact(order, reg, s.value);
    }
  }

  lemma {:induction false} BuildSeqExact(order: Order, reg: Registry, ss: seq<SCont>)
    requires Enumerates(order)
    ensures
      var r := BuildSeq(order, reg, ss);
      && (r.Ok? <==> forall b :: b in ss ==> Registered(reg, b))
      && (r.Ok? ==> SerializeSeq(r.value) == ss && forall b :: b in r.value ==> Wired(reg, b, false))
    decreases ss, 2
  {
    if ss != [] {
      BuildExact(order, reg, ss[0]);
      BuildSeqExact(order, reg, ss[1..]);
      assert ss[0] in ss && forall b :: b in ss[1..] ==> b in ss;
      assert ss == [ss[0]] + ss[1..];
    }
  }

  lemma {:induction false} BuildBranchExact(order: Order, reg: Registry, s: SCont)
    requires Enumerates(order) && s.SBranch?
    ensures Rebuilt(reg, s, BuildBranch(order, reg, s))
    decreases s, 0
  {
    var keys := order(s.routes.Keys);
    assert Lists(keys, s.routes.Keys);
    BuildRoutesExact(order, reg, s, keys);
    BuildOptExact(order, reg, s.default);
    BuildOptExact(order, reg, s.next);
    var r := BuildBranch(order, reg, s);
    if r.Ok? {
      assert SerializeRoutes(r.value) == s.routes;
    }
  }

  lemma {:induction false} BuildRoutesExact(order: Order, reg: Registry, s: SCont, keys: seq<string>)
    requires Enumerates(order) && s.SBranch? && forall k :: k in keys ==> k in s.routes
    ensures
      var r := BuildRoutes(order, reg, s, keys);
      && (r.Ok? <==> forall k :: k in keys ==> Registered(reg, s.routes[k]))
      && (r.Ok? ==> forall k :: k in r.value <==> k in keys)
      && (r.Ok? ==> forall k :: k in r.value ==>
        ToSerializable(r.value[k]) == s.routes[k] && Wired(reg, r.value[k], false))
    decreases s, 0, |keys|
  {
    if keys != [] {
      BuildExact(order, reg, s.routes[keys[0]]);
      BuildRoutesExact(order, reg, s, keys[1..]);
      assert keys == [keys[0]] + keys[1..];
    }
  }

  /**
   Rehydration succeeds exactly when the ids are distinct and every function is registered. The result
   serializes back to the stored tree, so it has the stored definition.
   */
  lemma RehydrationExact(order: Order, reg: Registry, s: SCont)
    requires Enumerates(order)
    ensures
      var r := ToRunnable(order, reg, s);
      && (r.Ok? <==> Unique(TaskIds(order, s)) && Registered(reg, s))
      && (r.Ok? ==> ToSerializable(r.value) == s && Wired(reg, r.value, false))
      && (!Unique(TaskIds(order, s)) ==> r.error.DuplicateTaskId? && multiset(TaskIds(order, s))[r.error.id] >= 2)
  {
    hide Build, TaskIds, ToSerializable, Registered, Wired, Scan, Enumerates;
    ScanExact({}, TaskIds(order, s));
    BuildExact(order, reg, s);
  }

  // ----- trees that survive the round trip unchanged -----

  lemma MillisExact(nanos: nat)
    ensures Millis(nanos) * 1_000_000 == nanos <==> WholeMillis(nanos)
  {
    var q := nanos / 1_000_000;
    assert q * 1_000_000 <= nanos < (q + 1) * 1_000_000;
    if q < 0x1_0000_0000_0000_0000 {
      assert Millis(nanos) == q;
    }
  }

  lemma {:induction false} BuildBack(order: Order, reg: Registry, c: Cont)
    requires Enumerates(order)
    ensures Build(order, reg, ToSerializable(c)) == Ok(c) <==> Wired(reg, c, true)
    decreases c, 1
  {
    match c
    case Task(_, _, m, next) =>
      if m.timeout.Some? {
        MillisExact(m.timeout.value);
      }
      BuildBackOpt(order, reg, next);
    case Fork(_, branches, join) =>
      BuildBackSeq(order, reg, branches);
      BuildBackOpt(order, reg, join);
      var bs, j := BuildSeq(order, reg, SerializeSeq(branches)), BuildOpt(order, reg, SerializeOpt(join));
      assert Build(order, reg, ToSerializable(c)) == Ok(c) <==> bs == Ok(branches) && j == Ok(join);
    case Delay(_, duration, next) =>
      MillisExact(duration);
      BuildBackOpt(order, reg, next);
    case AwaitSignal(_, _, timeout, next) =>
      if timeout.Some? {
        MillisExact(timeout.value);
      }
      BuildBackOpt(order, reg, next);
    case Branch(_, _, _, _, _) => BuildBackBranch(order, reg, c);
    case Loop(_, body, _, _, next) =>
      BuildBack(order, reg, body);
      BuildBackOpt(order, reg, next);
    case ChildWorkflow(_, child, next) =>
      BuildBack(order, reg, child);
      BuildBackOpt(order, reg, next);
  }

  lemma {:induction false} BuildBackOpt(order: Order, reg: Registry, c: Option<Cont>)
    requires Enumerates(order)
    ensures BuildOpt(order, reg, SerializeOpt(c)) == Ok(c) <==> WiredOpt(reg, c, true)
    decreases c, 2
  {
    if c.Some? {
      BuildBack(order, reg, c.value);
    }
  }

  lemma {:induction false} BuildBackSeq(order: Order, reg: Registry, cs: seq<Cont>)
    requires Enumerates(order)
    ensures BuildSeq(order, reg, SerializeSeq(cs)) == Ok(cs) <==> forall b :: b in cs ==> Wired(reg, b, true)
    decreases cs, 2
  {
    if cs != [] {
      BuildBack(order, reg, cs[0]);
      BuildBackSeq(order, reg, cs[1..]);
      assert cs == [cs[0]] + cs[1..] && SerializeSeq(cs)[1..] == SerializeSeq(cs[1..]);
      assert cs[0] in cs && forall b :: b in cs[1..] ==> b in cs;
      var r := BuildSeq(order, reg, SerializeSeq(cs));
      assert r == Ok(cs) ==> r.value[0] == cs[0] && r.value[1..] == cs[1..];
    }
  }

  lemma {:induction false} BuildBackBranch(order: Order, reg: Registry, c: Cont)
    requires Enumerates(order) && c.Branch?
    ensures Build(order, reg, ToSerializable(c)) == Ok(c) <==> Wired(reg, c, true)
    decreases c, 0
  {
    var s := ToSerializable(c);
    assert s.routes == SerializeRoutes(c);
    assert SerializeRoutes(c).Keys == c.routes.Keys by {
      hide ToSerializable;
    }
    var keys := order(s.routes.Keys);
    assert Lists(keys, s.routes.Keys);
    BuildBackRoutes(order, reg, c, s, keys);
    BuildBackOpt(order, reg, c.default);
    BuildBackOpt(order, reg, c.next);
    assert (map k | k in keys :: c.routes[k]) == c.routes;
    var rs, d, n := BuildRoutes(order, reg, s, keys), BuildOpt(order, reg, s.default), BuildOpt(order, reg, s.next);
    assert Build(order, reg, s) == BuildBranch(order, reg, s);
    hide Build, BuildOpt, BuildRoutes, ToSerializable, Enumerates;
    assert BuildBranch(order, reg, s) == Ok(c) <==>
      && KeyFnId(c.id) in reg && c.keyFn == Some(reg[KeyFnId(c.id)])
      && rs == Ok(c.routes) && d == Ok(c.default) && n == Ok(c.next);
  }

  lemma {:induction false} BuildBackRoutes(order: Order, reg: Registry, c: Cont, s: SCont, keys: seq<string>)
    requires Enumerates(order) && c.Branch? && s.SBranch? && s.routes == SerializeRoutes(c)
    requires (forall k :: k in keys ==> k in c.routes) && forall i, j :: 0 <= i < j < |keys| ==> keys[i] != keys[j]
    ensures
      BuildRoutes(order, reg, s, keys) == Ok(map k | k in keys :: c.routes[k])
      <==> forall k :: k in keys ==> Wired(reg, c.routes[k], true)
    decreases c, 0, |keys|
  {
    hide Build, ToSerializable, Wired, Registered, Enumerates;
    if keys != [] {
      var k0 := keys[0];
      BuildBack(order, reg, c.routes[k0]);
      BuildBackRoutes(order, reg, c, s, keys[1..]);
      assert k0 !in keys[1..] && forall k :: k in keys <==> k == k0 || k in keys[1..];
      var b, rest := Build(order, reg, s.routes[k0]), BuildRoutes(order, reg, s, keys[1..]);
      var want := map k | k in keys[1..] :: c.routes[k];
      assert (map k | k in keys :: c.routes[k]) == want[k0 := c.routes[k0]];
      BuiltKeys(order, reg, s, keys[1..]);
      AddRoute(b, rest, k0, c.routes[k0], want);
      var r := BuildRoutes(order, reg, s, keys);
      assert r == Ok(want[k0 := c.routes[k0]]) <==> b == Ok(c.routes[k0]) && rest == Ok(want);
    }
  }

  lemma {:induction false} BuiltKeys(order: Order, reg: Registry, s: SCont, keys: seq<string>)
    requires s.SBranch?
    ensures
      var r := BuildRoutes(order, reg, s, keys);
      r.Ok? ==> forall k :: k in r.value ==> k in keys
    decreases |keys|
  {
    if keys != [] {
      BuiltKeys(order, reg, s, keys[1..]);
      assert forall k :: k in keys[1..] ==> k in keys;
    }
  }

  /** Adding a route gives the wanted map exactly when the route and the other routes are the wanted ones. */
  lemma AddRoute(
      b: Result<Cont, RehydrateError>, rest: Result<map<string, Cont>, RehydrateError>, k: string, v: Cont,
      want: map<string, Cont>)
    requires k !in want && (rest.Ok? ==> k !in rest.value)
    ensures b.Ok? && rest.Ok? && rest.value[k := b.value] == want[k := v] <==> b == Ok(v) && rest == Ok(want)
  {
    if b.Ok? && rest.Ok? && rest.value[k := b.value] == want[k := v] {
      assert rest.value == rest.value[k := b.value] - {k} && want == want[k := v] - {k};
      assert rest.value[k := b.value][k] == want[k := v][k];
    }
  }

  /** Serializing and rehydrating gives the same tree exactly for wired trees with whole durations. */
  lemma RoundTripExact(order: Order, reg: Registry, c: Cont)
    requires Enumerates(order)
    ensures
      ToRunnable(order, reg, ToSerializable(c)) == Ok(c)
      <==> Unique(TaskIds(order, ToSerializable(c))) && Wired(reg, c, true)
  {
    ScanExact({}, TaskIds(order, ToSerializable(c)));
    BuildBack(order, reg, c);
  }
}
