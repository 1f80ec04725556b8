/**
 Ids across the representations of a tree: the iterator visits the ids the serialized tree lists, and
 trees without a duplicate meet the id requirements of the durable engine.
 */
module TreeIds {
  import opened Prelude
  import opened Continuation
  import opened Keys
  import opened Serial
  import opened Identifiers
  import opened Nodes
  import opened Rehydration
  import opened FlowBuilders
  import Durable
  import DurableFresh

  // ----- the iterator visits every id -----

  function IdsOf(nodes: seq<NodeInfo>): seq<string> {
    if nodes == [] then [] else [nodes[0].id] + IdsOf(nodes[1..])
  }

  lemma {:induction false} IdsOfConcat(a: seq<NodeInfo>, b: seq<NodeInfo>)
    ensures IdsOf(a + b) == IdsOf(a) + IdsOf(b)
    decreases |a|
  {
    if a == [] {
      assert a + b == b;
    } else {
      assert (a + b)[1..] == a[1..] + b;
      IdsOfConcat(a[1..], b);
    }
  }

  lemma {:induction false} PreorderIds(o: Order, c: Cont, p: Option<string>)
    ensures IdsOf(Preorder(o, c, p)) == TaskIds(o, ToSerializable(c))
    decreases c, 2
  {
    BelowIds(o, c);
    IdsOfConcat([Describe(c, p)], Below(o, c));
    assert ToSerializable(c).id == c.id;
  }

  lemma {:induction false} BelowIds(o: Order, c: Cont)
    ensures IdsOf(Below(o, c)) == IdsBelow(o, ToSerializable(c))
    decreases c, 1
  {
    hide Preorder, TaskIds;
    match c
    case Fork(id, branches, join) =>
      SeqIds(o, branches, id);
      OptIds(o, join, id);
      IdsOfConcat(PreorderSeq(o, branches, id), PreorderOpt(o, join, id));
    case Branch(id, _, routes, default, next) => BranchIds(o, c);
    case Loop(id, body, _, _, next) =>
      PreorderIds(o, body, Some(id));
      OptIds(o, next, id);
      IdsOfConcat(Preorder(o, body, Some(id)), PreorderOpt(o, next, id));
    case ChildWorkflow(id, child, next) =>
      PreorderIds(o, child, Some(id));
      OptIds(o, next, id);
      IdsOfConcat(Preorder(o, child, Some(id)), PreorderOpt(o, next, id));
    case _ => OptIds(o, c.next, c.id);
  }

  lemma {:induction false} BranchIds(o: Order, c: Cont)
    requires c.Branch?
    ensures IdsOf(Below(o, c)) == IdsBelow(o, ToSerializable(c))
    decreases c, 0
  {
    var s := ToSerializable(c);
    assert s.routes == SerializeRoutes(c);
    hide Preorder, TaskIds;
    assert s.routes.Keys == c.routes.Keys by {
      hide ToSerializable;
    }
    var keys := o(c.routes.Keys);
    RouteIds(o, c, s, keys);
    OptIds(o, c.default, c.id);
    OptIds(o, c.next, c.id);
    IdsOfConcat(PreorderOpt(o, c.default, c.id), PreorderOpt(o, c.next, c.id));
    IdsOfConcat(PreorderRoutes(o, c, keys), PreorderOpt(o, c.default, c.id) + PreorderOpt(o, c.next, c.id));
  }

  lemma {:induction false} OptIds(o: Order, c: Option<Cont>, p: string)
    ensures IdsOf(PreorderOpt(o, c, p)) == IdsOpt(o, SerializeOpt(c))
    decreases c, 3
  {
    if c.Some? {
      PreorderIds(o, c.value, Some(p));
    }
  }

  lemma {:induction false} SeqIds(o: Order, cs: seq<Cont>, p: string)
    ensures IdsOf(PreorderSeq(o, cs, p)) == IdsSeq(o, SerializeSeq(cs))
    decreases cs, 3
  {
    hide Preorder, TaskIds;
    if cs != [] {
      PreorderIds(o, cs[0], Some(p));
      SeqIds(o, cs[1..], p);
      IdsOfConcat(Preorder(o, cs[0], Some(p)), PreorderSeq(o, cs[1..], p));
      assert SerializeSeq(cs)[1..] == SerializeSeq(cs[1..]);
    }
  }

  lemma {:induction false} RouteIds(o: Order, c: Cont, s: SCont, keys: seq<string>)
    requires c.Branch? && s.SBranch? && s.routes == SerializeRoutes(c)
    ensures IdsOf(PreorderRoutes(o, c, keys)) == IdsRoutes(o, s, keys)
    decreases c, 0, |keys|
  {
    hide Preorder, TaskIds, ToSerializable;
    if keys != [] {
      RouteIds(o, c, s, keys[1..]);
      if keys[0] in c.routes {
        PreorderIds(o, c.routes[keys[0]], Some(c.id));
        IdsOfConcat(Preorder(o, c.routes[keys[0]], Some(c.id)), PreorderRoutes(o, c, keys[1..]));
      } else {
        assert PreorderRoutes(o, c, keys) == PreorderRoutes(o, c, keys[1..]);
        assert IdsRoutes(o, s, keys) == IdsRoutes(o, s, keys[1..]);
      }
    }
  }

  /** The iterator yields each id as often as the serialized tree lists it, and nothing else. */
  lemma IteratorVisitsTaskIds(o: Order, o': Order, c: Cont)
    requires Enumerates(o) && Enumerates(o')
    ensures multiset(IdsOf(Preorder(SortedOrder(o), c, None))) == multiset(TaskIds(o', ToSerializable(c)))
  {
    SortedOrderEnumerates(o);
    PreorderIds(SortedOrder(o), c, None);
    SameBag(SortedOrder(o), o', ToSerializable(c));
  }

  // ----- distinct ids are enough for the durable engine -----

  /** The ids of a node and of what it contains. */
  function OwnIds(o: Order, s: SCont): seq<string> {
    [s.id] +
    match s
    case SFork(_, branches, _) => IdsSeq(o, branches)
    case SBranch(_, routes, default, _) => IdsRoutes(o, s, o(routes.Keys)) + IdsOpt(o, default)
    case SLoop(_, body, _, _, _) => TaskIds(o, body)
    case SChildWorkflow(_, child, _) => TaskIds(o, child)
    case _ => []
  }

  lemma SplitIds(o: Order, s: SCont)
    ensures TaskIds(o, s) == OwnIds(o, s) + IdsOpt(o, SNext(s))
  {
    hide IdsSeq, IdsRoutes, IdsOpt;
    var next := IdsOpt(o, SNext(s));
    match s
    case SFork(id, branches, _) => Regroup([id], IdsSeq(o, branches), next);
    case SBranch(id, routes, default, _) =>
      var rs := IdsRoutes(o, s, o(routes.Keys));
      Regroup(rs, IdsOpt(o, default), next);
      Regroup([id], rs + IdsOpt(o, default), next);
    case SLoop(id, body, _, _, _) => Regroup([id], TaskIds(o, body), next);
    case SChildWorkflow(id, child, _) => Regroup([id], TaskIds(o, child), next);
    case _ => Regroup([s.id], [], next);
  }

  /** Concatenated ids are distinct exactly when the parts are and share nothing. */
  lemma UniqueConcat(a: seq<string>, b: seq<string>)
    ensures Unique(a + b) <==> Unique(a) && Unique(b) && forall x :: x in a ==> x !in b
  {
    var s := a + b;
    if Unique(s) {
      assert forall i :: 0 <= i < |a| ==> a[i] == s[i];
      assert forall i :: 0 <= i < |b| ==> b[i] == s[|a| + i];
    }
    if Unique(a) && Unique(b) && forall x :: x in a ==> x !in b {
      forall i, j | 0 <= i < j < |s| ensures s[i] != s[j] {
        assert s[i] == if i < |a| then a[i] else b[i - |a|];
        assert s[j] == if j < |a| then a[j] else b[j - |a|];
        assert i < |a| <= j ==> a[i] in a && b[j - |a|] in b;
      }
    }
  }

  lemma {:induction false} CoversIds(o: Order, c: Cont)
    requires Enumerates(o)
    ensures forall x :: x in Durable.Ids(c) ==> x in TaskIds(o, ToSerializable(c))
    decreases c, 2
  {
    CoversNodeIds(o, c);
    SplitIds(o, ToSerializable(c));
    if Next(c).Some? {
      CoversIds(o, Next(c).value);
    }
  }

  lemma {:induction false} CoversNodeIds(o: Order, c: Cont)
    requires Enumerates(o)
    ensures forall x :: x in Durable.NodeIds(c) ==> x in OwnIds(o, ToSerializable(c))
    decreases c, 1
  {
    hide TaskIds;
    match c
    case Fork(_, branches, _) => CoversBranchIds(o, branches);
    case Branch(_, _, _, _, _) => CoversRouteIds(o, c);
    case Loop(_, body, _, _, _) => CoversIds(o, body);
    case ChildWorkflow(_, child, _) => CoversIds(o, child);
    case _ =>
  }

  lemma {:induction false} CoversBranchIds(o: Order, cs: seq<Cont>)
    requires Enumerates(o)
    ensures forall x :: x in Durable.BranchIds(cs) ==> x in IdsSeq(o, SerializeSeq(cs))
    decreases cs, 3
  {
    if cs != [] {
      CoversIds(o, cs[0]);
      CoversBranchIds(o, cs[1..]);
      assert SerializeSeq(cs)[1..] == SerializeSeq(cs[1..]);
    }
  }

  lemma {:induction false} CoversRouteIds(o: Order, c: Cont)
    requires Enumerates(o) && c.Branch?
    ensures forall x :: x in Durable.NodeIds(c) ==> x in OwnIds(o, ToSerializable(c))
    decreases c, 0
  {
    var s := ToSerializable(c);
    var keys := SerializedKeys(o, c);
    forall x | x in Durable.NodeIds(c) ensures x in OwnIds(o, s) {
      hide TaskIds, ToSerializable;
      if k :| k in c.routes && x in Durable.Ids(c.routes[k]) {
        CoversIds(o, c.routes[k]);
        RouteIdsAt(o, s, keys, k);
      } else if c.default.Some? && x in Durable.Ids(c.default.value) {
        CoversIds(o, c.default.value);
      }
    }
  }

  /** The keys of the serialized branch are the keys of the branch. */
  lemma SerializedKeys(o: Order, c: Cont) returns (keys: seq<string>)
    requires Enumerates(o) && c.Branch?
    ensures ToSerializable(c).SBranch? && keys == o(ToSerializable(c).routes.Keys)
    ensures ToSerializable(c).id == c.id && ToSerializable(c).default == SerializeOpt(c.default)
    ensures ToSerializable(c).routes.Keys == c.routes.Keys
    ensures forall k :: k in keys <==> k in c.routes
    ensures forall k :: k in c.routes ==> ToSerializable(c).routes[k] == ToSerializable(c.routes[k])
  {
    var s := ToSerializable(c);
    assert s.routes == SerializeRoutes(c);
    hide ToSerializable;
    assert s.routes.Keys == c.routes.Keys;
    keys := o(s.routes.Keys);
    assert Lists(keys, s.routes.Keys);
  }

  lemma {:induction false} RouteIdsAt(o: Order, s: SCont, keys: seq<string>, k: string)
    requires s.SBranch? && k in keys && k in s.routes
    ensures forall x :: x in TaskIds(o, s.routes[k]) ==> x in IdsRoutes(o, s, keys)
    decreases |keys|
  {
    hide TaskIds;
    if k != keys[0] {
      RouteIdsAt(o, s, keys[1..], k);
    }
  }

  lemma {:induction false} UniqueRoute(o: Order, s: SCont, keys: seq<string>, k: string)
    requires s.SBranch? && k in keys && k in s.routes && Unique(IdsRoutes(o, s, keys))
    ensures Unique(TaskIds(o, s.routes[k]))
    decreases |keys|
  {
    hide TaskIds;
    var first := if keys[0] in s.routes then TaskIds(o, s.routes[keys[0]]) else [];
    UniqueConcat(first, IdsRoutes(o, s, keys[1..]));
    if k != keys[0] {
      UniqueRoute(o, s, keys[1..], k);
    }
  }

  /** Without duplicates, no two nodes share a cache key. */
  lemma {:induction false} UniqueGivesDistinct(o: Order, c: Cont)
    requires Enumerates(o) && Unique(TaskIds(o, ToSerializable(c)))
    ensures DurableFresh.Distinct(c)
    decreases c, 2
  {
    var s := ToSerializable(c);
    SplitIds(o, s);
    UniqueConcat(OwnIds(o, s), IdsOpt(o, SNext(s)));
    UniqueGivesDistinctNode(o, c);
    CoversNodeIds(o, c);
    if Next(c).Some? {
      UniqueGivesDistinct(o, Next(c).value);
      CoversIds(o, Next(c).value);
    }
  }

  lemma {:induction false} UniqueGivesDistinctNode(o: Order, c: Cont)
    requires Enumerates(o) && Unique(OwnIds(o, ToSerializable(c)))
    ensures DurableFresh.DistinctNode(c)
    decreases c, 1
  {
    hide TaskIds;
    var s := ToSerializable(c);
    match c
    case Fork(_, branches, _) =>
      UniqueConcat([c.id], IdsSeq(o, SerializeSeq(branches)));
      UniqueGivesDistinctBranches(o, branches);
    case Branch(_, _, _, _, _) => UniqueGivesDistinctRoutes(o, c);
    case Loop(_, body, _, _, _) =>
      UniqueConcat([c.id], TaskIds(o, ToSerializable(body)));
      UniqueGivesDistinct(o, body);
      CoversIds(o, body);
    case ChildWorkflow(_, child, _) =>
      UniqueConcat([c.id], TaskIds(o, ToSerializable(child)));
      UniqueGivesDistinct(o, child);
      CoversIds(o, child);
    case _ =>
  }

  lemma {:induction false} UniqueGivesDistinctBranches(o: Order, cs: seq<Cont>)
    requires Enumerates(o) && Unique(IdsSeq(o, SerializeSeq(cs)))
    ensures DurableFresh.DistinctBranches(cs)
    decreases cs, 3
  {
    if cs != [] {
      var first, rest := TaskIds(o, ToSerializable(cs[0])), IdsSeq(o, SerializeSeq(cs[1..]));
      assert SerializeSeq(cs)[1..] == SerializeSeq(cs[1..]);
      hide TaskIds;
      UniqueConcat(first, rest);
      UniqueGivesDistinct(o, cs[0]);
      UniqueGivesDistinctBranches(o, cs[1..]);
      CoversIds(o, cs[0]);
      CoversBranchIds(o, cs[1..]);
      if cs[0].Fork? {
        ForkIdApart(o, cs[0]);
      }
    }
  }

  lemma ForkIdApart(o: Order, c: Cont)
    requires Enumerates(o) && c.Fork? && Unique(TaskIds(o, ToSerializable(c)))
    ensures c.id !in Durable.BranchIds(c.branches)
  {
    SplitIds(o, ToSerializable(c));
    UniqueConcat(OwnIds(o, ToSerializable(c)), IdsOpt(o, SerializeOpt(c.join)));
    UniqueConcat([c.id], IdsSeq(o, SerializeSeq(c.branches)));
    CoversBranchIds(o, c.branches);
  }

  lemma {:induction false} UniqueGivesDistinctRoutes(o: Order, c: Cont)
    requires Enumerates(o) && c.Branch? && Unique(OwnIds(o, ToSerializable(c)))
    ensures DurableFresh.DistinctNode(c)
    decreases c, 0
  {
    var s := ToSerializable(c);
    var keys := SerializedKeys(o, c);
    hide TaskIds, ToSerializable;
    UniqueConcat([s.id], IdsRoutes(o, s, keys) + IdsOpt(o, s.default));
    UniqueConcat(IdsRoutes(o, s, keys), IdsOpt(o, s.default));
    hide IdsRoutes, IdsOpt, Unique, Durable.Ids, DurableFresh.Distinct;
    forall k | k in c.routes ensures DurableFresh.Distinct(c.routes[k]) && c.id !in Durable.Ids(c.routes[k]) {
      UniqueRoute(o, s, keys, k);
      RouteIdsAt(o, s, keys, k);
      UniqueGivesDistinct(o, c.routes[k]);
      CoversIds(o, c.routes[k]);
      assert c.id in [s.id] && c.id !in IdsRoutes(o, s, keys);
    }
    if c.default.Some? {
      UniqueGivesDistinct(o, c.default.value);
      CoversIds(o, c.default.value);
    }
  }

  /** Every rehydrated tree meets the durable engine's requirement on ids. */
  lemma RehydratedIsDistinct(o: Order, reg: Registry, s: SCont)
    requires Enumerates(o) && ToRunnable(o, reg, s).Ok?
    ensures DurableFresh.Distinct(ToRunnable(o, reg, s).value)
  {
    RehydrationExact(o, reg, s);
    UniqueGivesDistinct(o, ToRunnable(o, reg, s).value);
  }

  // ----- forks with a single branch -----

  /** The id of a fork with one branch is the id of that branch's first task. */
  predicate HasSingleFork(t: BuilderTask) {
    match t
    case ForkTask(branches, _, _) => |branches| == 1
    case ChildTask(_, tasks) => exists t' :: t' in tasks && HasSingleFork(t')
    case _ => false
  }

  /** A workflow built with a one-branch fork carries a duplicate id, so rehydration refuses it. */
  lemma {:induction false} SingleForkIsRefused(o: Order, reg: Registry, tasks: seq<BuilderTask>)
    requires TreeOf(tasks).Ok? && exists t :: t in tasks && HasSingleFork(t)
    ensures ToRunnable(o, reg, ToSerializable(TreeOf(tasks).value)).Err?
  {
    var s := ToSerializable(TreeOf(tasks).value);
    SingleForkRepeats(o, tasks);
    ScanExact({}, TaskIds(o, s));
  }

  lemma {:induction false} SingleForkRepeats(o: Order, tasks: seq<BuilderTask>)
    requires BuildList(tasks).Ok? && exists t :: t in tasks && HasSingleFork(t)
    ensures BuildList(tasks).value.Some? && !Unique(TaskIds(o, ToSerializable(BuildList(tasks).value.value)))
    decreases tasks, 1
  {
    var rest := BuildList(tasks[1..]).value;
    if HasSingleFork(tasks[0]) {
      SingleForkNode(o, tasks[0], rest);
    } else {
      var t :| t in tasks && HasSingleFork(t);
      assert t in tasks[1..];
      SingleForkRepeats(o, tasks[1..]);
      RepeatsBefore(o, tasks[0], rest);
    }
  }

  /** A duplicate further down the chain is a duplicate of the chain. */
  lemma RepeatsBefore(o: Order, t: BuilderTask, next: Option<Cont>)
    requires BuildOne(t, next).Ok? && next.Some? && !Unique(TaskIds(o, ToSerializable(next.value)))
    ensures !Unique(TaskIds(o, ToSerializable(BuildOne(t, next).value)))
  {
    var c := BuildOne(t, next).value;
    if c.Fork? {
      RepeatsInNext(o, c.join.value);
    }
    RepeatsInNext(o, c);
  }

  lemma SerializedNext(c: Cont)
    ensures SNext(ToSerializable(c)) == SerializeOpt(Next(c))
  {
    match c {
      case Fork(_, _, _) =>
      case Task(_, _, _, _) =>
      case Delay(_, _, _) =>
      case AwaitSignal(_, _, _, _) =>
      case Branch(_, _, _, _, _) =>
      case Loop(_, _, _, _, _) =>
      case ChildWorkflow(_, _, _) =>
    }
  }

  lemma RepeatsInNext(o: Order, c: Cont)
    requires Next(c).Some? && !Unique(TaskIds(o, ToSerializable(Next(c).value)))
    ensures !Unique(TaskIds(o, ToSerializable(c)))
  {
    var s := ToSerializable(c);
    SerializedNext(c);
    SplitIds(o, s);
    hide TaskIds, ToSerializable;
    UniqueConcat(OwnIds(o, s), IdsOpt(o, SNext(s)));
  }

  lemma {:induction false} SingleForkNode(o: Order, t: BuilderTask, next: Option<Cont>)
    requires HasSingleFork(t) && BuildOne(t, next).Ok?
    ensures !Unique(TaskIds(o, ToSerializable(BuildOne(t, next).value)))
    decreases t, 0
  {
    var c := BuildOne(t, next).value;
    var s := ToSerializable(c);
    match t
    case ForkTask(branches, _, _) =>
      SingleForkBuilt(branches);
      var b := ToSerializable(c.branches[0]);
      assert SerializeSeq(c.branches) == [b] + SerializeSeq(c.branches[1..]);
      assert s.branches[0] == b;
      assert IdsSeq(o, s.branches) == [b.id] + IdsBelow(o, b) + IdsSeq(o, s.branches[1..]);
      var tail := IdsSeq(o, s.branches) + IdsOpt(o, s.join);
      assert TaskIds(o, s) == [s.id] + tail && tail[0] == b.id;
      assert TaskIds(o, s)[0] == TaskIds(o, s)[1];
    case ChildTask(_, tasks) =>
      SingleForkRepeats(o, tasks);
      SplitIds(o, s);
      UniqueConcat(OwnIds(o, s), IdsOpt(o, SNext(s)));
      UniqueConcat([s.id], TaskIds(o, s.child));
  }

  lemma SingleForkBuilt(branches: seq<TaskChain>)
    requires |branches| == 1 && ChainsOf(branches).Some?
    ensures |ChainsOf(branches).value| == 1 && ChainsOf(branches).value[0].id == ForkId(branches)
  {
    assert branches[1..] == [];
    assert ChainOf(branches[0]).Some? && ChainOf(branches[0]).value.id == branches[0][0].0;
  }
}
