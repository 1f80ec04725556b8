/** The flat task index answers every lookup as the search through the tree does. */
module TaskIndexes {
  import opened Prelude
  import opened Continuation
  import opened Keys
  import opened Nodes

  /** The digest of a node id. */
  type TaskId = nat

  type Hash = string -> TaskId

  const DEFAULT_META := TaskMeta(None, None, None, None, [])

  // ----- searching the tree -----

  /** The first task, in visiting order, whose id has the given digest. */
  function FindTask(order: Order, hash: Hash, c: Cont, t: TaskId): (r: Option<Cont>)
    ensures r.Some? ==> r.value.Task? && hash(r.value.id) == t
    decreases c, 1
  {
    match c
    case Task(id, _, _, next) => if hash(id) == t then Some(c) else FindOpt(order, hash, next, t)
    case Fork(_, branches, join) =>
      var r := FindSeq(order, hash, branches, t);
      if r.Some? then r else FindOpt(order, hash, join, t)
    case Branch(_, _, routes, default, next) =>
      var r := FindRoutes(order, hash, c, order(routes.Keys), t);
      if r.Some? then r else
      var d := FindOpt(order, hash, default, t);
      if d.Some? then d else FindOpt(order, hash, next, t)
    case Loop(_, body, _, _, next) =>
      var r := FindTask(order, hash, body, t);
      if r.Some? then r else FindOpt(order, hash, next, t)
    case ChildWorkflow(_, child, next) =>
      var r := FindTask(order, hash, child, t);
      if r.Some? then r else FindOpt(order, hash, next, t)
    case _ => FindOpt(order, hash, c.next, t)
  }

  function FindOpt(order: Order, hash: Hash, c: Option<Cont>, t: TaskId): (r: Option<Cont>)
    ensures r.Some? ==> r.value.Task? && hash(r.value.id) == t
    decreases c, 2
  {
    if c.None? then None else FindTask(order, hash, c.value, t)
  }

  function FindSeq(order: Order, hash: Hash, cs: seq<Cont>, t: TaskId): (r: Option<Cont>)
    ensures r.Some? ==> r.value.Task? && hash(r.value.id) == t
    decreases cs, 2
  {
    if cs == [] then None else
    var r := FindTask(order, hash, cs[0], t);
    if r.Some? then r else FindSeq(order, hash, cs[1..], t)
  }

  function FindRoutes(order: Order, hash: Hash, c: Cont, keys: seq<string>, t: TaskId): (r: Option<Cont>)
    requires c.Branch?
    ensures r.Some? ==> r.value.Task? && hash(r.value.id) == t
    decreases c, 0, |keys|
  {
    if keys == [] then None else
    var r := if keys[0] in c.routes then FindTask(order, hash, c.routes[keys[0]], t) else None;
    if r.Some? then r else FindRoutes(order, hash, c, keys[1..], t)
  }

  /** The configuration of a task, or the default for an id that is no task's. */
  function TreeMeta(order: Order, hash: Hash, c: Cont, t: TaskId): TaskMeta {
    var r := FindTask(order, hash, c, t);
    if r.Some? then r.value.meta else DEFAULT_META
  }

  // ----- the index -----

  datatype Entry = Entry(name: string, meta: TaskMeta)

  type Index = map<TaskId, Entry>

  predicate Indexed(n: NodeInfo) {
    n.kind in {TaskNode, DelayNode, SignalNode}
  }

  /** Only a task's timeout is kept: a delay's duration is not a timeout. */
  function EntryOf(n: NodeInfo): Entry {
    Entry(n.id, TaskMeta(if n.kind == TaskNode then n.timeout else None, n.retry, n.version, n.priority, n.tags))
  }

  /** Later nodes replace earlier ones with the same digest. */
  function IndexOf(hash: Hash, nodes: seq<NodeInfo>): Index {
    if nodes == [] then map[] else
    var n := |nodes| - 1;
    var ix := IndexOf(hash, nodes[..n]);
    if Indexed(nodes[n]) then ix[hash(nodes[n].id) := EntryOf(nodes[n])] else ix
  }

  function Build(order: Order, hash: Hash, c: Cont): Index {
    IndexOf(hash, Preorder(SortedOrder(order), c, None))
  }

  function IndexMeta(ix: Index, t: TaskId): TaskMeta {
    if t in ix then ix[t].meta else DEFAULT_META
  }

  // ----- the search returns the first task -----

  /** The first task with the digest in a list of visited nodes. */
  function FirstTask(hash: Hash, nodes: seq<NodeInfo>, t: TaskId): (r: Option<NodeInfo>)
    ensures r.Some? ==> r.value in nodes && r.value.kind == TaskNode && hash(r.value.id) == t
    ensures r.None? ==> forall n :: n in nodes && n.kind == TaskNode ==> hash(n.id) != t
  {
    if nodes == [] then None
    else if nodes[0].kind == TaskNode && hash(nodes[0].id) == t then Some(nodes[0])
    else FirstTask(hash, nodes[1..], t)
  }

  lemma {:induction false} FirstTaskConcat(hash: Hash, a: seq<NodeInfo>, b: seq<NodeInfo>, t: TaskId)
    ensures FirstTask(hash, a + b, t) ==
      if FirstTask(hash, a, t).Some? then FirstTask(hash, a, t) else FirstTask(hash, b, t)
    decreases |a|
  {
    if a == [] {
      assert a + b == b;
    } else {
      assert (a + b)[1..] == a[1..] + b;
      FirstTaskConcat(hash, a[1..], b, t);
    }
  }

  /** The search result `r` is the first task with the digest among the visited nodes. */
  ghost predicate Finds(hash: Hash, nodes: seq<NodeInfo>, t: TaskId, r: Option<Cont>) {
    var first := FirstTask(hash, nodes, t);
    if r.None? then first.None?
    else r.value.Task? && first.Some? && first.value == Describe(r.value, first.value.predecessor)
  }

  lemma FindsConcat(hash: Hash, a: seq<NodeInfo>, b: seq<NodeInfo>, t: TaskId, r: Option<Cont>, r': Option<Cont>)
    requires Finds(hash, a, t, r) && (r.None? ==> Finds(hash, b, t, r'))
    ensures Finds(hash, a + b, t, if r.Some? then r else r')
  {
    FirstTaskConcat(hash, a, b, t);
  }

  lemma FindsNode(hash: Hash, c: Cont, p: Option<string>, t: TaskId)
    ensures Finds(hash, [Describe(c, p)], t, if c.Task? && hash(c.id) == t then Some(c) else None)
  {
    assert [Describe(c, p)][1..] == [];
  }

  /** The search visits the nodes in pre-order, and returns the first task with the digest. */
  lemma {:induction false} SearchIsFirst(o: Order, hash: Hash, c: Cont, t: TaskId, p: Option<string>)
    ensures Finds(hash, Preorder(o, c, p), t, FindTask(o, hash, c, t))
    decreases c, 2
  {
    var here := if c.Task? && hash(c.id) == t then Some(c) else None;
    FindsNode(hash, c, p, t);
    if here.None? {
      FindBelow(o, hash, c, t);
    }
    FindsConcat(hash, [Describe(c, p)], Below(o, c), t, here, FindTask(o, hash, c, t));
  }

  lemma {:induction false} FindBelow(o: Order, hash: Hash, c: Cont, t: TaskId)
    requires !(c.Task? && hash(c.id) == t)
    ensures Finds(hash, Below(o, c), t, FindTask(o, hash, c, t))
    decreases c, 1
  {
    hide Finds, Preorder, PreorderOpt, PreorderSeq;
    match c
    case Fork(id, branches, join) =>
      FindInSeq(o, hash, branches, t, id);
      FindInOpt(o, hash, join, t, id);
      FindsConcat(hash, PreorderSeq(o, branches, id), PreorderOpt(o, join, id), t,
                  FindSeq(o, hash, branches, t), FindOpt(o, hash, join, t));
    case Branch(_, _, _, _, _) => FindBranch(o, hash, c, t);
    case Loop(id, body, _, _, next) =>
      SearchIsFirst(o, hash, body, t, Some(id));
      FindInOpt(o, hash, next, t, id);
      FindsConcat(hash, Preorder(o, body, Some(id)), PreorderOpt(o, next, id), t,
                  FindTask(o, hash, body, t), FindOpt(o, hash, next, t));
    case ChildWorkflow(id, child, next) =>
      SearchIsFirst(o, hash, child, t, Some(id));
      FindInOpt(o, hash, next, t, id);
      FindsConcat(hash, Preorder(o, child, Some(id)), PreorderOpt(o, next, id), t,
                  FindTask(o, hash, child, t), FindOpt(o, hash, next, t));
    case _ => FindInOpt(o, hash, c.next, t, c.id);
  }

  lemma {:induction false} FindInOpt(o: Order, hash: Hash, c: Option<Cont>, t: TaskId, p: string)
    ensures Finds(hash, PreorderOpt(o, c, p), t, FindOpt(o, hash, c, t))
    decreases c, 3
  {
    if c.Some? {
      SearchIsFirst(o, hash, c.value, t, Some(p));
    }
  }

  lemma {:induction false} FindInSeq(o: Order, hash: Hash, cs: seq<Cont>, t: TaskId, p: string)
    ensures Finds(hash, PreorderSeq(o, cs, p), t, FindSeq(o, hash, cs, t))
    decreases cs, 3
  {
    if cs != [] {
      SearchIsFirst(o, hash, cs[0], t, Some(p));
      FindInSeq(o, hash, cs[1..], t, p);
      FindsConcat(hash, Preorder(o, cs[0], Some(p)), PreorderSeq(o, cs[1..], p), t,
                  FindTask(o, hash, cs[0], t), FindSeq(o, hash, cs[1..], t));
    }
  }

  lemma {:induction false} FindBranch(o: Order, hash: Hash, c: Cont, t: TaskId)
    requires c.Branch?
    ensures Finds(hash, Below(o, c), t, FindTask(o, hash, c, t))
    decreases c, 0
  {
    hide Finds, Preorder, PreorderOpt, PreorderRoutes, FindRoutes, FindOpt;
    var keys := o(c.routes.Keys);
    FindInRoutes(o, hash, c, keys, t);
    FindInOpt(o, hash, c.default, t, c.id);
    FindInOpt(o, hash, c.next, t, c.id);
    var r, d, n := FindRoutes(o, hash, c, keys, t), FindOpt(o, hash, c.default, t), FindOpt(o, hash, c.next, t);
    var default, next := PreorderOpt(o, c.default, c.id), PreorderOpt(o, c.next, c.id);
    FindsConcat(hash, default, next, t, d, n);
    FindsConcat(hash, PreorderRoutes(o, c, keys), default + next, t, r, if d.Some? then d else n);
  }

  lemma {:induction false} FindInRoutes(o: Order, hash: Hash, c: Cont, keys: seq<string>, t: TaskId)
    requires c.Branch?
    ensures Finds(hash, PreorderRoutes(o, c, keys), t, FindRoutes(o, hash, c, keys, t))
    decreases c, 0, |keys|
  {
    if keys != [] {
      FindInRoutes(o, hash, c, keys[1..], t);
      if keys[0] in c.routes {
        SearchIsFirst(o, hash, c.routes[keys[0]], t, Some(c.id));
        FindsConcat(hash, Preorder(o, c.routes[keys[0]], Some(c.id)), PreorderRoutes(o, c, keys[1..]), t,
                    FindTask(o, hash, c.routes[keys[0]], t), FindRoutes(o, hash, c, keys[1..], t));
      } else {
        assert PreorderRoutes(o, c, keys) == PreorderRoutes(o, c, keys[1..]);
      }
    }
  }

  // ----- the index keeps the last node -----

  /** The last indexed node with the digest in a list of visited nodes. */
  function LastIndexed(hash: Hash, nodes: seq<NodeInfo>, t: TaskId): (r: Option<NodeInfo>)
    ensures r.Some? ==> r.value in nodes && Indexed(r.value) && hash(r.value.id) == t
    ensures r.None? ==> forall n :: n in nodes && Indexed(n) ==> hash(n.id) != t
  {
    if nodes == [] then None else
    var n := |nodes| - 1;
    assert nodes == nodes[..n] + [nodes[n]];
    if Indexed(nodes[n]) && hash(nodes[n].id) == t then Some(nodes[n]) else LastIndexed(hash, nodes[..n], t)
  }

  /** An index entry is that of the last indexed node with the digest. */
  lemma {:induction false} IndexIsLast(hash: Hash, nodes: seq<NodeInfo>, t: TaskId)
    ensures Get(IndexOf(hash, nodes), t) ==
            if LastIndexed(hash, nodes, t).Some? then Some(EntryOf(LastIndexed(hash, nodes, t).value)) else None
    decreases |nodes|
  {
    if nodes != [] {
      IndexIsLast(hash, nodes[..|nodes| - 1], t);
    }
  }

  // ----- when index and search agree -----

  /**
   On any tree and for any digest at all, index and search give the same configuration exactly when no
   task has the digest, or the first task with it, in the search's order, and the last indexed node with
   it, in the iterator's order, are configured alike.
   */
  lemma IndexAgreementExact(o: Order, hash: Hash, c: Cont, t: TaskId)
    requires Enumerates(o)
    ensures
      var first := FirstTask(hash, Preorder(o, c, None), t);
      var last := LastIndexed(hash, Preorder(SortedOrder(o), c, None), t);
      IndexMeta(Build(o, hash, c), t) == TreeMeta(o, hash, c, t) <==>
        first.None? || (last.Some? && EntryOf(first.value).meta == EntryOf(last.value).meta)
  {
    var nodes, sorted := Preorder(o, c, None), Preorder(SortedOrder(o), c, None);
    SearchIsFirst(o, hash, c, t, None);
    IndexIsLast(hash, sorted, t);
    SortedOrderEnumerates(o);
    SameNodes(o, SortedOrder(o), c, None);
    hide Preorder, FindTask, IndexOf, SortedOrder, Enumerates, FirstTask, LastIndexed;
    var first, last := FirstTask(hash, nodes, t), LastIndexed(hash, sorted, t);
    if first.Some? {
      assert first.value in sorted && Indexed(first.value);
    } else {
      assert last.Some? ==> last.value in nodes && EntryOf(last.value).meta == DEFAULT_META;
    }
  }

  /** No two indexed nodes have the same digest. */
  predicate DistinctIndexed(hash: Hash, nodes: seq<NodeInfo>) {
    forall m, n :: m in nodes && n in nodes && Indexed(m) && Indexed(n) && hash(m.id) == hash(n.id) ==> m == n
  }

  /**
   In particular they agree, for every digest, when no two tasks, delays and signals share one: other
   nodes may share theirs with a task, as the only branch of a built fork does.
   */
  lemma IndexAgreesWithSearch(o: Order, hash: Hash, c: Cont, t: TaskId)
    requires Enumerates(o) && DistinctIndexed(hash, Preorder(SortedOrder(o), c, None))
    ensures IndexMeta(Build(o, hash, c), t) == TreeMeta(o, hash, c, t)
  {
    IndexAgreementExact(o, hash, c, t);
    SortedOrderEnumerates(o);
    SameNodes(o, SortedOrder(o), c, None);
    var nodes, sorted := Preorder(o, c, None), Preorder(SortedOrder(o), c, None);
    hide Preorder, FindTask, IndexOf, SortedOrder, Enumerates, FirstTask, LastIndexed, Build, TreeMeta;
    var first, last := FirstTask(hash, nodes, t), LastIndexed(hash, sorted, t);
    assert first.Some? ==> first.value in sorted && Indexed(first.value);
  }

  lemma TaskNodes(o: Order, c: Cont, p: Option<string>)
    requires c.Task?
    ensures Preorder(o, c, p) == [Describe(c, p)] + PreorderOpt(o, c.next, c.id)
  {
  }

  /** With a repeated task id the search returns the first settings and the index the last ones. */
  lemma RepeatedIdDisagrees(o: Order, hash: Hash, a: string, m: TaskMeta, n: TaskMeta)
    ensures
      var c := Task(a, None, m, Some(Task(a, None, n, None)));
      IndexMeta(Build(o, hash, c), hash(a)) == n && TreeMeta(o, hash, c, hash(a)) == m
  {
    var d := Task(a, None, n, None);
    var c := Task(a, None, m, Some(d));
    var visit := SortedOrder(o);
    TaskNodes(visit, c, None);
    TaskNodes(visit, d, Some(a));
    var nodes := Preorder(visit, c, None);
    assert nodes == [Describe(c, None)] + ([Describe(d, Some(a))] + []);
    IndexIsLast(hash, nodes, hash(a));
    assert nodes[1] == Describe(d, Some(a));
  }

  // ----- the visited nodes do not depend on the order of the routes -----

  ghost predicate Alike(a: seq<NodeInfo>, b: seq<NodeInfo>) {
    forall n :: n in a <==> n in b
  }

  lemma {:induction false} SameNodes(o: Order, o': Order, c: Cont, p: Option<string>)
    requires Enumerates(o) && Enumerates(o')
    ensures Alike(Preorder(o, c, p), Preorder(o', c, p))
    decreases c, 2
  {
    SameBelow(o, o', c);
  }

  lemma {:induction false} SameBelow(o: Order, o': Order, c: Cont)
    requires Enumerates(o) && Enumerates(o')
    ensures Alike(Below(o, c), Below(o', c))
    decreases c, 1
  {
    hide Preorder, PreorderOpt, PreorderSeq, Enumerates;
    match c
    case Fork(id, branches, join) =>
      SameSeq(o, o', branches, id);
      SameOpt(o, o', join, id);
    case Branch(id, _, routes, default, next) =>
      SameRoutes(o, o', c);
      SameOpt(o, o', default, id);
      SameOpt(o, o', next, id);
    case Loop(id, body, _, _, next) =>
      SameNodes(o, o', body, Some(id));
      SameOpt(o, o', next, id);
    case ChildWorkflow(id, child, next) =>
      SameNodes(o, o', child, Some(id));
      SameOpt(o, o', next, id);
    case _ => SameOpt(o, o', c.next, c.id);
  }

  lemma {:induction false} SameOpt(o: Order, o': Order, c: Option<Cont>, p: string)
    requires Enumerates(o) && Enumerates(o')
    ensures Alike(PreorderOpt(o, c, p), PreorderOpt(o', c, p))
    decreases c, 3
  {
    if c.Some? {
      SameNodes(o, o', c.value, Some(p));
    }
  }

  lemma {:induction false} SameSeq(o: Order, o': Order, cs: seq<Cont>, p: string)
    requires Enumerates(o) && Enumerates(o')
    ensures Alike(PreorderSeq(o, cs, p), PreorderSeq(o', cs, p))
    decreases cs, 3
  {
    if cs != [] {
      SameNodes(o, o', cs[0], Some(p));
      SameSeq(o, o', cs[1..], p);
    }
  }

  lemma {:induction false} SameRoutes(o: Order, o': Order, c: Cont)
    requires Enumerates(o) && Enumerates(o') && c.Branch?
    ensures Alike(PreorderRoutes(o, c, o(c.routes.Keys)), PreorderRoutes(o', c, o'(c.routes.Keys)))
    decreases c, 0
  {
    var keys, keys' := o(c.routes.Keys), o'(c.routes.Keys);
    assert Lists(keys, c.routes.Keys) && Lists(keys', c.routes.Keys);
    RoutesHold(o, c, keys);
    RoutesHold(o', c, keys');
    hide Preorder, PreorderRoutes, Enumerates;
    forall k | k in c.routes
      ensures Alike(Preorder(o, c.routes[k], Some(c.id)), Preorder(o', c.routes[k], Some(c.id)))
    {
      SameNodes(o, o', c.routes[k], Some(c.id));
    }
  }

  /** The nodes of the routes are the nodes of each listed route. */
  lemma {:induction false} RoutesHold(o: Order, c: Cont, keys: seq<string>)
    requires c.Branch?
    ensures
      forall n :: n in PreorderRoutes(o, c, keys) <==>
        exists k :: k in keys && k in c.routes && n in Preorder(o, c.routes[k], Some(c.id))
    decreases |keys|
  {
    hide Preorder;
    if keys != [] {
      RoutesHold(o, c, keys[1..]);
      assert forall k :: k in keys <==> k == keys[0] || k in keys[1..];
    }
  }

  // ----- the first task -----

  /** The node whose id, priority and tags describe what a workflow starts with. */
  function FirstNode(c: Cont): Option<Cont> {
    match c
    case Fork(_, branches, _) => if branches == [] then None else FirstNode(branches[0])
    case Loop(_, body, _, _, _) => FirstNode(body)
    case ChildWorkflow(_, child, _) => FirstNode(child)
    case _ => Some(c)
  }

  function FirstTaskPriority(c: Cont): Option<nat> {
    match c
    case Task(_, _, m, _) => m.priority
    case Fork(_, branches, _) => if branches == [] then None else FirstTaskPriority(branches[0])
    case Loop(_, body, _, _, _) => FirstTaskPriority(body)
    case ChildWorkflow(_, child, _) => FirstTaskPriority(child)
    case _ => None
  }

  function FirstTaskTags(c: Cont): seq<string> {
    match c
    case Task(_, _, m, _) => m.tags
    case Fork(_, branches, _) => if branches == [] then [] else FirstTaskTags(branches[0])
    case Loop(_, body, _, _, _) => FirstTaskTags(body)
    case ChildWorkflow(_, child, _) => FirstTaskTags(child)
    case _ => []
  }

  lemma {:induction false} FirstNodeFields(c: Cont)
    ensures
      var f := FirstNode(c);
      && (f.None? ==> FirstTaskId(c) == "unknown" && FirstTaskPriority(c).None? && FirstTaskTags(c) == [])
      && (f.Some? ==> FirstTaskId(c) == f.value.id)
      && (f.Some? ==> FirstTaskPriority(c) == if f.value.Task? then f.value.meta.priority else None)
      && (f.Some? ==> FirstTaskTags(c) == if f.value.Task? then f.value.meta.tags else [])
      && (f.Some? ==> f.value.Task? || f.value.Delay? || f.value.AwaitSignal? || f.value.Branch?)
  {
    match c
    case Fork(_, branches, _) =>
      if branches != [] {
        FirstNodeFields(branches[0]);
      }
    case Loop(_, body, _, _, _) => FirstNodeFields(body);
    case ChildWorkflow(_, child, _) => FirstNodeFields(child);
    case _ =>
  }

  lemma {:induction false} FirstNodeVisited(o: Order, c: Cont, p: Option<string>)
    requires FirstNode(c).Some?
    ensures exists q :: Describe(FirstNode(c).value, q) in Preorder(o, c, p)
    decreases c
  {
    var n := FirstNode(c).value;
    match c
    case Fork(id, branches, join) =>
      FirstNodeVisited(o, branches[0], Some(id));
      var q :| Describe(n, q) in Preorder(o, branches[0], Some(id));
      assert Describe(n, q) in PreorderSeq(o, branches, id);
      assert Describe(n, q) in Below(o, c);
    case Loop(id, body, _, _, next) =>
      FirstNodeVisited(o, body, Some(id));
      var q :| Describe(n, q) in Preorder(o, body, Some(id));
      assert Describe(n, q) in Below(o, c);
    case ChildWorkflow(id, child, next) =>
      FirstNodeVisited(o, child, Some(id));
      var q :| Describe(n, q) in Preorder(o, child, Some(id));
      assert Describe(n, q) in Below(o, c);
    case _ =>
      assert Preorder(o, c, p)[0] == Describe(c, p);
  }

  /** The workflow starts with a task, a delay or a signal wait. */
  predicate StartsIndexed(c: Cont) {
    FirstNode(c).Some? && !FirstNode(c).value.Branch?
  }

  /**
   The hint for the first task carries the priority and tags that the index holds for its id. Where the
   workflow starts with a branch node, or with a fork without branches, whose placeholder id is "unknown",
   that id must not be the id of a task, delay or signal.
   */
  lemma FirstTaskHintAgrees(o: Order, hash: Hash, c: Cont)
    requires DistinctIndexed(hash, Preorder(SortedOrder(o), c, None))
    requires StartsIndexed(c) || LastIndexed(hash, Preorder(SortedOrder(o), c, None), hash(FirstTaskId(c))).None?
    ensures
      var m := IndexMeta(Build(o, hash, c), hash(FirstTaskId(c)));
      m.priority == FirstTaskPriority(c) && m.tags == FirstTaskTags(c)
  {
    var nodes, t := Preorder(SortedOrder(o), c, None), hash(FirstTaskId(c));
    FirstNodeFields(c);
    IndexIsLast(hash, nodes, t);
    if StartsIndexed(c) {
      FirstNodeVisited(SortedOrder(o), c, None);
      hide Preorder, IndexOf, LastIndexed, FirstNode, FirstTaskPriority, FirstTaskTags, SortedOrder;
      var q :| Describe(FirstNode(c).value, q) in nodes;
      var n := Describe(FirstNode(c).value, q);
      assert Indexed(n) && hash(n.id) == t;
      assert LastIndexed(hash, nodes, t) == Some(n);
    }
  }
}
