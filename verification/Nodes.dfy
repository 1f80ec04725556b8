/**
 Walking a tree: the explicit-stack iterator yields the recursive pre-order, in which every node comes
 after the node it names as its predecessor.
 */
module Nodes {
  import opened Prelude
  import opened Continuation
  import opened Keys

  datatype NodeKind = TaskNode | ForkNode | DelayNode | SignalNode | BranchNode | LoopNode | ChildNode

  /** `timeout` is a task's or signal's timeout, or a delay's duration. */
  datatype AnyInfo = Info(
    id: string,
    kind: NodeKind,
    predecessor: Option<string>,
    timeout: Option<nat>,
    retry: Option<RetryPolicy>,
    priority: Option<nat>,
    tags: seq<string>,
    version: Option<string>)

  /** Retry policy, priority, tags and version are given for tasks only. */
  type NodeInfo = n: AnyInfo |
    n.kind == TaskNode || (n.retry.None? && n.priority.None? && n.tags == [] && n.version.None?)
    witness Info("", ForkNode, None, None, None, None, [], None)

  function Describe(c: Cont, predecessor: Option<string>): NodeInfo {
    match c
    case Task(id, _, m, _) => Info(id, TaskNode, predecessor, m.timeout, m.retry, m.priority, m.tags, m.version)
    case Fork(id, _, _) => Info(id, ForkNode, predecessor, None, None, None, [], None)
    case Delay(id, duration, _) => Info(id, DelayNode, predecessor, Some(duration), None, None, [], None)
    case AwaitSignal(id, _, timeout, _) => Info(id, SignalNode, predecessor, timeout, None, None, [], None)
    case Branch(id, _, _, _, _) => Info(id, BranchNode, predecessor, None, None, None, [], None)
    case Loop(id, _, _, _, _) => Info(id, LoopNode, predecessor, None, None, None, [], None)
    case ChildWorkflow(id, _, _) => Info(id, ChildNode, predecessor, None, None, None, [], None)
  }

  // ----- the recursive order -----

  /** The node, what it contains, and what follows it; routes come in the given order of their keys. */
  function Preorder(order: Order, c: Cont, predecessor: Option<string>): seq<NodeInfo>
    decreases c, 1
  {
    [Describe(c, predecessor)] + Below(order, c)
  }

  function Below(order: Order, c: Cont): seq<NodeInfo>
    decreases c, 0
  {
    match c
    case Fork(id, branches, join) => PreorderSeq(order, branches, id) + PreorderOpt(order, join, id)
    case Branch(id, _, routes, default, next) =>
      PreorderRoutes(order, c, order(routes.Keys)) + (PreorderOpt(order, default, id) + PreorderOpt(order, next, id))
    case Loop(id, body, _, _, next) => Preorder(order, body, Some(id)) + PreorderOpt(order, next, id)
    case ChildWorkflow(id, child, next) => Preorder(order, child, Some(id)) + PreorderOpt(order, next, id)
    case _ => PreorderOpt(order, c.next, c.id)
  }

  function PreorderOpt(order: Order, c: Option<Cont>, predecessor: string): seq<NodeInfo>
    decreases c, 2
  {
    if c.None? then [] else Preorder(order, c.value, Some(predecessor))
  }

  function PreorderSeq(order: Order, cs: seq<Cont>, predecessor: string): seq<NodeInfo>
    decreases cs, 2
  {
    if cs == [] then [] else Preorder(order, cs[0], Some(predecessor)) + PreorderSeq(order, cs[1..], predecessor)
  }

  function PreorderRoutes(order: Order, c: Cont, keys: seq<string>): seq<NodeInfo>
    requires c.Branch?
    decreases c, 0, |keys|
  {
    if keys == [] then [] else
    (if keys[0] in c.routes then Preorder(order, c.routes[keys[0]], Some(c.id)) else []) +
      PreorderRoutes(order, c, keys[1..])
  }

  // ----- the iterator -----

  type Entry = (Cont, Option<string>)

  /** What an iterator with this stack still yields; the top of the stack is its end. */
  function Pending(order: Order, stack: seq<Entry>): seq<NodeInfo> {
    if stack == [] then [] else
    var n := |stack| - 1;
    Preorder(order, stack[n].0, stack[n].1) + Pending(order, stack[..n])
  }

  lemma PendingPush(order: Order, stack: seq<Entry>, e: Entry)
    ensures Pending(order, stack + [e]) == Preorder(order, e.0, e.1) + Pending(order, stack)
  {
    assert (stack + [e])[..|stack|] == stack;
  }

  class NodeIter {
    var stack: seq<Entry>

    constructor (c: Cont)
      ensures stack == [(c, None)]
    {
      stack := [(c, None)];
    }

    method Push(ghost visit: Order, c: Cont, predecessor: string)
      modifies this
      ensures Pending(visit, stack) == Preorder(visit, c, Some(predecessor)) + Pending(visit, old(stack))
    {
      PendingPush(visit, stack, (c, Some(predecessor)));
      stack := stack + [(c, Some(predecessor))];
    }

    method PushOpt(ghost visit: Order, c: Option<Cont>, predecessor: string)
      modifies this
      ensures Pending(visit, stack) == PreorderOpt(visit, c, predecessor) + Pending(visit, old(stack))
    {
      if c.Some? {
        Push(visit, c.value, predecessor);
      }
    }

    /** Pushes the children in reverse, so that the first one is popped next. */
    method PushChildren(order: Order, c: Cont)
      requires Enumerates(order)
      modifies this
      ensures
        var visit := SortedOrder(order);
        Pending(visit, stack) == Below(visit, c) + Pending(visit, old(stack))
    {
      ghost var visit := SortedOrder(order);
      match c
      case Fork(id, branches, join) => PushFork(visit, c);
      case Branch(_, _, _, _, _) => PushRoutes(order, c);
      case Loop(id, body, _, _, next) =>
        PushOpt(visit, next, id);
        Push(visit, body, id);
      case ChildWorkflow(id, child, next) =>
        PushOpt(visit, next, id);
        Push(visit, child, id);
      case _ =>
        PushOpt(visit, c.next, c.id);
    }

    method PushFork(ghost visit: Order, c: Cont)
      requires c.Fork?
      modifies this
      ensures Pending(visit, stack) == Below(visit, c) + Pending(visit, old(stack))
    {
      hide Pending, Preorder, PreorderOpt;
      PushOpt(visit, c.join, c.id);
      ghost var base := Pending(visit, stack);
      var i := |c.branches|;
      while i > 0
        invariant 0 <= i <= |c.branches|
        invariant Pending(visit, stack) == PreorderSeq(visit, c.branches[i..], c.id) + base
      {
        i := i - 1;
        assert c.branches[i..][1..] == c.branches[i + 1..];
        Push(visit, c.branches[i], c.id);
        Regroup(Preorder(visit, c.branches[i], Some(c.id)), PreorderSeq(visit, c.branches[i + 1..], c.id), base);
      }
      assert c.branches[0..] == c.branches;
      Regroup(PreorderSeq(visit, c.branches, c.id), PreorderOpt(visit, c.join, c.id), Pending(visit, old(stack)));
    }

    method PushRoutes(order: Order, c: Cont)
      requires c.Branch? && Enumerates(order)
      modifies this
      ensures
        var visit := SortedOrder(order);
        Pending(visit, stack) == Below(visit, c) + Pending(visit, old(stack))
    {
      ghost var visit := SortedOrder(order);
      var keys := SortedKeys(order, c.routes.Keys);
      assert visit(c.routes.Keys) == keys;
      SortedKeysFacts(order, c.routes.Keys);
      hide Pending, Preorder, PreorderOpt, SortedKeys, SortedOrder, Enumerates;
      PushOpt(visit, c.next, c.id);
      PushOpt(visit, c.default, c.id);
      ghost var base := Pending(visit, stack);
      ghost var default, next := PreorderOpt(visit, c.default, c.id), PreorderOpt(visit, c.next, c.id);
      Regroup(default, next, Pending(visit, old(stack)));
      var i := |keys|;
      while i > 0
        invariant 0 <= i <= |keys|
        invariant Pending(visit, stack) == PreorderRoutes(visit, c, keys[i..]) + base
      {
        i := i - 1;
        assert keys[i..][1..] == keys[i + 1..] && keys[i] in keys;
        Push(visit, c.routes[keys[i]], c.id);
        Regroup(Preorder(visit, c.routes[keys[i]], Some(c.id)), PreorderRoutes(visit, c, keys[i + 1..]), base);
      }
      assert keys[0..] == keys;
      Regroup(PreorderRoutes(visit, c, keys), default + next, Pending(visit, old(stack)));
    }

    /** Yields the first pending node, if there is one. */
    method Next(order: Order) returns (info: Option<NodeInfo>)
      requires Enumerates(order)
      modifies this
      ensures old(stack) == [] ==> info.None? && stack == []
      ensures
        var visit := SortedOrder(order);
        old(stack) != [] ==> info.Some? && Pending(visit, old(stack)) == [info.value] + Pending(visit, stack)
    {
      if stack == [] {
        return None;
      }
      var n := |stack| - 1;
      var (c, predecessor) := stack[n];
      stack := stack[..n];
      PushChildren(order, c);
      info := Some(Describe(c, predecessor));
    }
  }

  /** Draining the iterator terminates and gives the recursive pre-order with sorted route keys. */
  method IterNodes(order: Order, c: Cont) returns (nodes: seq<NodeInfo>)
    requires Enumerates(order)
    ensures nodes == Preorder(SortedOrder(order), c, None)
  {
    var iter := new NodeIter(c);
    nodes := [];
    ghost var visit := SortedOrder(order);
    ghost var all := Preorder(visit, c, None);
    assert iter.stack[..0] == [] && Pending(visit, []) == [];
    assert Pending(visit, iter.stack) == all;
    var info := iter.Next(order);
    hide SortedOrder;
    while info.Some?
      invariant fresh(iter)
      invariant info.Some? ==> nodes + ([info.value] + Pending(visit, iter.stack)) == all
      invariant info.None? ==> nodes == all
      decreases if info.Some? then |Pending(visit, iter.stack)| + 1 else 0
    {
      nodes := nodes + [info.value];
      assert nodes + Pending(visit, iter.stack) == all;
      info := iter.Next(order);
    }
  }

  // ----- topological order -----

  /** Every predecessor is `root` or the id of an earlier node. */
  ghost predicate Linked(nodes: seq<NodeInfo>, root: string) {
    forall i :: 0 <= i < |nodes| ==>
      nodes[i].predecessor.Some? && (nodes[i].predecessor.value == root || Earlier(nodes, i))
  }

  ghost predicate Earlier(nodes: seq<NodeInfo>, i: nat)
    requires i < |nodes| && nodes[i].predecessor.Some?
  {
    exists j :: 0 <= j < i && nodes[j].id == nodes[i].predecessor.value
  }

  lemma LinkedConcat(a: seq<NodeInfo>, b: seq<NodeInfo>, root: string)
    requires Linked(a, root) && Linked(b, root)
    ensures Linked(a + b, root)
  {
    var s := a + b;
    forall i | 0 <= i < |s|
      ensures s[i].predecessor.Some? && (s[i].predecessor.value == root || Earlier(s, i))
    {
      if i < |a| {
        assert s[i] == a[i];
        if a[i].predecessor.value != root {
          var j :| 0 <= j < i && a[j].id == a[i].predecessor.value;
          assert s[j] == a[j];
        }
      } else {
        assert s[i] == b[i - |a|];
        if s[i].predecessor.value != root {
          var j :| 0 <= j < i - |a| && b[j].id == b[i - |a|].predecessor.value;
          assert s[|a| + j] == b[j];
        }
      }
    }
  }

  lemma LinkedCons(d: NodeInfo, b: seq<NodeInfo>)
    requires Linked(b, d.id)
    ensures forall i :: 0 < i < |[d] + b| ==> ([d] + b)[i].predecessor.Some? && Earlier([d] + b, i)
  {
    var s := [d] + b;
    forall i | 0 < i < |s| ensures s[i].predecessor.Some? && Earlier(s, i) {
      assert s[i] == b[i - 1];
      if b[i - 1].predecessor.value == d.id {
        assert s[0] == d;
      } else {
        var j :| 0 <= j < i - 1 && b[j].id == b[i - 1].predecessor.value;
        assert s[j + 1] == b[j];
      }
    }
  }

  lemma {:induction false} BelowLinked(order: Order, c: Cont)
    ensures Linked(Below(order, c), c.id)
    decreases c, 1
  {
    match c
    case Fork(id, branches, join) =>
      SeqLinked(order, branches, id);
      OptLinked(order, join, id);
      LinkedConcat(PreorderSeq(order, branches, id), PreorderOpt(order, join, id), id);
    case Branch(id, _, routes, default, next) =>
      OptLinked(order, default, id);
      OptLinked(order, next, id);
      LinkedConcat(PreorderOpt(order, default, id), PreorderOpt(order, next, id), id);
      var keys := order(routes.Keys);
      RoutesLinked(order, c, keys);
      LinkedConcat(PreorderRoutes(order, c, keys), PreorderOpt(order, default, id) + PreorderOpt(order, next, id), id);
    case Loop(id, body, _, _, next) =>
      NodeLinked(order, body, id);
      OptLinked(order, next, id);
      LinkedConcat(Preorder(order, body, Some(id)), PreorderOpt(order, next, id), id);
    case ChildWorkflow(id, child, next) =>
      NodeLinked(order, child, id);
      OptLinked(order, next, id);
      LinkedConcat(Preorder(order, child, Some(id)), PreorderOpt(order, next, id), id);
    case _ => OptLinked(order, c.next, c.id);
  }

  lemma {:induction false} NodeLinked(order: Order, c: Cont, root: string)
    ensures Linked(Preorder(order, c, Some(root)), root)
    decreases c, 2
  {
    BelowLinked(order, c);
    LinkedCons(Describe(c, Some(root)), Below(order, c));
  }

  lemma {:induction false} OptLinked(order: Order, c: Option<Cont>, root: string)
    ensures Linked(PreorderOpt(order, c, root), root)
    decreases c, 3
  {
    if c.Some? {
      NodeLinked(order, c.value, root);
    }
  }

  lemma {:induction false} SeqLinked(order: Order, cs: seq<Cont>, root: string)
    ensures Linked(PreorderSeq(order, cs, root), root)
    decreases cs, 3
  {
    if cs != [] {
      NodeLinked(order, cs[0], root);
      SeqLinked(order, cs[1..], root);
      LinkedConcat(Preorder(order, cs[0], Some(root)), PreorderSeq(order, cs[1..], root), root);
    }
  }

  lemma {:induction false} RoutesLinked(order: Order, c: Cont, keys: seq<string>)
    requires c.Branch?
    ensures Linked(PreorderRoutes(order, c, keys), c.id)
    decreases c, 0, |keys|
  {
    if keys != [] {
      RoutesLinked(order, c, keys[1..]);
      if keys[0] in c.routes {
        NodeLinked(order, c.routes[keys[0]], c.id);
        LinkedConcat(Preorder(order, c.routes[keys[0]], Some(c.id)), PreorderRoutes(order, c, keys[1..]), c.id);
      } else {
        assert PreorderRoutes(order, c, keys) == PreorderRoutes(order, c, keys[1..]);
      }
    }
  }

  /** The root comes first and has no predecessor; every other node follows the node it names. */
  lemma TopologicalOrder(order: Order, c: Cont)
    ensures
      var nodes := Preorder(order, c, None);
      nodes[0] == Describe(c, None) &&
      forall i :: 0 < i < |nodes| ==> nodes[i].predecessor.Some? && Earlier(nodes, i)
  {
    BelowLinked(order, c);
    LinkedCons(Describe(c, None), Below(order, c));
  }

  // ----- determinism -----

  /** The order of the nodes depends on the order of the route keys only. */
  lemma {:induction false} PreorderByKeys(o: Order, o': Order, c: Cont, predecessor: Option<string>)
    requires forall keys :: o(keys) == o'(keys)
    ensures Preorder(o, c, predecessor) == Preorder(o', c, predecessor)
    decreases c, 1
  {
    assert Below(o, c) == Below(o', c) by {
      match c
      case Fork(id, branches, join) =>
        SeqByKeys(o, o', branches, id);
        OptByKeys(o, o', join, id);
      case Branch(id, _, routes, default, next) =>
        RoutesByKeys(o, o', c, o(routes.Keys));
        OptByKeys(o, o', default, id);
        OptByKeys(o, o', next, id);
      case Loop(id, body, _, _, next) =>
        PreorderByKeys(o, o', body, Some(id));
        OptByKeys(o, o', next, id);
      case ChildWorkflow(id, child, next) =>
        PreorderByKeys(o, o', child, Some(id));
        OptByKeys(o, o', next, id);
      case _ => OptByKeys(o, o', c.next, c.id);
    }
  }

  lemma {:induction false} OptByKeys(o: Order, o': Order, c: Option<Cont>, root: string)
    requires forall keys :: o(keys) == o'(keys)
    ensures PreorderOpt(o, c, root) == PreorderOpt(o', c, root)
    decreases c, 2
  {
    if c.Some? {
      PreorderByKeys(o, o', c.value, Some(root));
    }
  }

  lemma {:induction false} SeqByKeys(o: Order, o': Order, cs: seq<Cont>, root: string)
    requires forall keys :: o(keys) == o'(keys)
    ensures PreorderSeq(o, cs, root) == PreorderSeq(o', cs, root)
    decreases cs, 2
  {
    if cs != [] {
      PreorderByKeys(o, o', cs[0], Some(root));
      SeqByKeys(o, o', cs[1..], root);
    }
  }

  lemma {:induction false} RoutesByKeys(o: Order, o': Order, c: Cont, keys: seq<string>)
    requires c.Branch? && forall keys :: o(keys) == o'(keys)
    ensures PreorderRoutes(o, c, keys) == PreorderRoutes(o', c, keys)
    decreases c, 0, |keys|
  {
    if keys != [] {
      RoutesByKeys(o, o', c, keys[1..]);
      if keys[0] in c.routes {
        PreorderByKeys(o, o', c.routes[keys[0]], Some(c.id));
      }
    }
  }

  /** Sorting the route keys makes the iteration independent of the iteration order of the maps. */
  lemma IterationDeterministic(o: Order, o': Order, c: Cont)
    requires Enumerates(o) && Enumerates(o')
    ensures Preorder(SortedOrder(o), c, None) == Preorder(SortedOrder(o'), c, None)
  {
    forall keys ensures SortedOrder(o)(keys) == SortedOrder(o')(keys) {
      SortedKeysUnique(o, o', keys);
    }
    PreorderByKeys(SortedOrder(o), SortedOrder(o'), c, None);
  }
}
