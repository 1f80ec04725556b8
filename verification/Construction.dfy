/** What built trees look like, and the two directions of building them. */
module Construction {
  import opened Prelude
  import opened Continuation
  import opened Semantics
  import opened PlanCorrectness
  import opened FlowBuilders

  // ----- the shape of built trees -----

  predicate OnlyTasks(c: Cont) {
    c.Task? && (c.next.Some? ==> OnlyTasks(c.next.value))
  }

  /**
   Fork branches, routes and defaults are chains of tasks, a fork is followed by its join task, loop
   bodies are single tasks with at least one iteration. With `filled`, forks have branches and
   branch nodes have routes.
   */
  predicate BuiltShape(c: Cont, filled: bool)
    decreases c, 1
  {
    BuiltNode(c, filled) && (Next(c).Some? ==> BuiltShape(Next(c).value, filled))
  }

  predicate BuiltNode(c: Cont, filled: bool)
    decreases c, 0
  {
    match c
    case Fork(_, branches, join) =>
      && (forall b :: b in branches ==> OnlyTasks(b)) && join.Some? && join.value.Task?
      && (filled ==> branches != [])
    case Branch(_, _, routes, default, _) =>
      && (forall k :: k in routes ==> OnlyTasks(routes[k])) && (default.Some? ==> OnlyTasks(default.value))
      && (filled ==> routes != map[])
    case Loop(_, body, max, _, _) => body.Task? && body.next.None? && max >= 1
    case ChildWorkflow(_, child, _) => BuiltShape(child, filled)
    case _ => true
  }

  lemma {:induction false} ChainShape(chain: TaskChain)
    requires chain != []
    ensures OnlyTasks(ChainOf(chain).value)
  {
    if |chain| > 1 {
      ChainShape(chain[1..]);
    }
  }

  lemma {:induction false} ChainsShape(chains: seq<TaskChain>)
    requires ChainsOf(chains).Some?
    ensures |ChainsOf(chains).value| == |chains| && forall b :: b in ChainsOf(chains).value ==> OnlyTasks(b)
  {
    if chains != [] {
      ChainShape(chains[0]);
      ChainsShape(chains[1..]);
    }
  }

  lemma {:induction false} RoutesShape(routes: seq<(string, TaskChain)>)
    requires RoutesOf(routes).Some?
    ensures forall k :: k in RoutesOf(routes).value ==> OnlyTasks(RoutesOf(routes).value[k])
    ensures routes != [] ==> RoutesOf(routes).value != map[]
  {
    if routes != [] {
      var n := |routes| - 1;
      ChainShape(routes[n].1);
      RoutesShape(routes[..n]);
      assert routes[n].0 in RoutesOf(routes).value;
    }
  }

  lemma {:induction false} OneShape(t: BuilderTask, next: Option<Cont>, filled: bool)
    requires BuildOne(t, next).Ok? && (next.Some? ==> BuiltShape(next.value, filled)) && (filled ==> Accepted(t))
    ensures BuiltShape(BuildOne(t, next).value, filled)
    decreases t, 0
  {
    match t
    case ForkTask(branches, _, _) => ChainsShape(branches);
    case BranchTask(_, routes, default) =>
      RoutesShape(routes);
      if default.Some? {
        ChainShape(default.value);
      }
    case ChildTask(_, tasks) => ListShape(tasks, filled);
    case _ =>
  }

  lemma {:induction false} ListShape(tasks: seq<BuilderTask>, filled: bool)
    requires BuildList(tasks).Ok? && (filled ==> forall t :: t in tasks ==> Accepted(t))
    ensures BuildList(tasks).value.Some? ==> BuiltShape(BuildList(tasks).value.value, filled)
    decreases tasks, 1
  {
    if tasks != [] {
      ListShape(tasks[1..], filled);
      OneShape(tasks[0], BuildList(tasks[1..]).value, filled);
    }
  }

  lemma {:induction false} TasksSteppable(c: Cont, inFork: bool)
    requires OnlyTasks(c)
    ensures Steppable(c, inFork)
  {
    if c.next.Some? {
      TasksSteppable(c.next.value, inFork);
    }
  }

  lemma {:induction false} ShapeSteppable(c: Cont)
    requires BuiltShape(c, false)
    ensures Steppable(c, false)
    decreases c, 1
  {
    if Next(c).Some? {
      ShapeSteppable(Next(c).value);
    }
    match c
    case Fork(_, branches, _) =>
      forall b | b in branches ensures Steppable(b, true) {
        TasksSteppable(b, true);
      }
    case Branch(_, _, routes, default, _) =>
      forall k | k in routes ensures Steppable(routes[k], false) {
        TasksSteppable(routes[k], false);
      }
      if default.Some? {
        TasksSteppable(default.value, false);
      }
    case Loop(_, body, _, _, _) => TasksSteppable(body, false);
    case ChildWorkflow(_, child, _) => ShapeSteppable(child);
    case _ =>
  }

  /**
   Whatever list of tasks builds at all gives a tree the stepper supports. If the tasks went through
   the builder's checks, forks and branch nodes are not empty either.
   */
  lemma BuilderGivesSteppable(tasks: seq<BuilderTask>)
    requires TreeOf(tasks).Ok?
    ensures BuiltShape(TreeOf(tasks).value, false) && Steppable(TreeOf(tasks).value, false)
    ensures (forall t :: t in tasks ==> Accepted(t)) ==> BuiltShape(TreeOf(tasks).value, true)
  {
    ListShape(tasks, false);
    ShapeSteppable(TreeOf(tasks).value);
    if forall t :: t in tasks ==> Accepted(t) {
      ListShape(tasks, true);
    }
  }

  // ----- main chain in call order -----

  /** The ids along the main chain. */
  function Spine(c: Cont): seq<string>
    decreases c
  {
    [c.id] + if Next(c).Some? then Spine(Next(c).value) else []
  }

  /** The main-chain ids a task contributes: its own, or the fork's and its join's. */
  function TaskSpine(t: BuilderTask): seq<string> {
    match t
    case Sequential(id, _) => [id]
    case ForkTask(branches, joinId, _) => [ForkId(branches), joinId]
    case DelayTask(id, _) => [id]
    case AwaitSignalTask(id, _, _) => [id]
    case BranchTask(id, _, _) => [id]
    case LoopTask(id, _, _, _, _) => [id]
    case ChildTask(id, _) => [id]
  }

  function TaskSpines(tasks: seq<BuilderTask>): seq<string> {
    if tasks == [] then [] else TaskSpine(tasks[0]) + TaskSpines(tasks[1..])
  }

  /** Main-chain nodes come in call order. */
  lemma {:induction false} SpineInCallOrder(tasks: seq<BuilderTask>)
    requires BuildList(tasks).Ok? && tasks != []
    ensures BuildList(tasks).value.Some? && Spine(BuildList(tasks).value.value) == TaskSpines(tasks)
    decreases tasks
  {
    var c := BuildList(tasks).value.value;
    if |tasks| > 1 {
      SpineInCallOrder(tasks[1..]);
    }
    if tasks[0].ForkTask? {
      assert Spine(c) == [c.id] + Spine(c.join.value);
    }
  }

  // ----- forward construction -----

  /** Attaches `node` at the end of the chain; past a fork that is the end of its join. */
  function Append(c: Cont, node: Cont): Cont
    decreases c
  {
    var next := Some(if Next(c).Some? then Append(Next(c).value, node) else node);
    match c
    case Task(id, f, m, _) => Task(id, f, m, next)
    case Fork(id, bs, _) => Fork(id, bs, next)
    case Delay(id, d, _) => Delay(id, d, next)
    case AwaitSignal(id, n, t, _) => AwaitSignal(id, n, t, next)
    case Branch(id, k, rs, d, _) => Branch(id, k, rs, d, next)
    case Loop(id, b, m, p, _) => Loop(id, b, m, p, next)
    case ChildWorkflow(id, ch, _) => ChildWorkflow(id, ch, next)
  }

  /** An appended chain runs the first part, then the second on its result. */
  lemma {:induction false} EvalAppend(env: Env, labels: Labels, signals: map<string, Bytes>, a: Cont, b: Cont, x: Bytes)
    ensures
      var r := Eval(env, labels, signals, a, x);
      Eval(env, labels, signals, Append(a, b), x) ==
        if r.out.Done? then After(r.calls, Eval(env, labels, signals, b, r.out.value)) else r
    decreases a
  {
    AppendNode(env, labels, signals, a, b, x);
    var r := EvalNode(env, labels, signals, a, x);
    if r.out.Done? && Next(a).Some? {
      var n := Next(a).value;
      EvalAppend(env, labels, signals, n, b, r.out.value);
      var r' := Eval(env, labels, signals, n, r.out.value);
      if r'.out.Done? {
        var tail := Eval(env, labels, signals, b, r'.out.value).calls;
        assert r.calls + (r'.calls + tail) == (r.calls + r'.calls) + tail;
      }
    }
  }

  /** Appending changes a node's successor, not what the node itself does. */
  lemma {:induction false} AppendNode(env: Env, labels: Labels, signals: map<string, Bytes>, a: Cont, b: Cont, x: Bytes)
    ensures EvalNode(env, labels, signals, Append(a, b), x) == EvalNode(env, labels, signals, a, x)
    ensures Next(Append(a, b)) == Some(if Next(a).Some? then Append(Next(a).value, b) else b)
  {
    var c := Append(a, b);
    if a.Loop? {
      LoopNext(env, labels, signals, a, c, 0, x);
    }
    if a.Branch? {
      forall answer ensures Choose(env, c, answer) == Choose(env, a, answer) { }
    }
  }

  lemma {:induction false} LoopNext(
      env: Env, labels: Labels, signals: map<string, Bytes>, a: Cont, c: Cont, i: nat, x: Bytes)
    requires a.Loop? && c.Loop? && c.body == a.body && c.id == a.id && c.maxIterations == a.maxIterations
    requires c.onMax == a.onMax
    ensures EvalLoop(env, labels, signals, c, i, x) == EvalLoop(env, labels, signals, a, i, x)
    decreases a.maxIterations - i
  {
    if i < a.maxIterations {
      var r := Eval(env, labels, signals, a.body, x);
      if r.out.Done? && env.decodeLoop(r.out.value).Ok? {
        LoopNext(env, labels, signals, a, c, i + 1, env.decodeLoop(r.out.value).value.1);
      }
    }
  }

  /** Appends the single-node trees of the tasks one after the other. */
  function Forward(acc: Cont, tasks: seq<BuilderTask>): Result<Cont, BuildError>
    decreases tasks
  {
    if tasks == [] then Ok(acc) else
    var node := BuildOne(tasks[0], None);
    if node.Err? then Err(node.error) else Forward(Append(acc, node.value), tasks[1..])
  }

  /** Building a task in front of a chain is appending the chain to the task. */
  lemma BuildThenAppend(t: BuilderTask, next: Option<Cont>, node: Cont)
    requires BuildOne(t, None).Ok?
    ensures BuildOne(t, next).Ok?
    ensures next.Some? ==> BuildOne(t, next).value == Append(BuildOne(t, None).value, next.value)
    ensures Append(BuildOne(t, next).value, node) ==
      BuildOne(t, Some(if next.Some? then Append(next.value, node) else node)).value
  {
  }

  lemma {:induction false} AppendAssoc(a: Cont, b: Cont, c: Cont)
    ensures Append(Append(a, b), c) == Append(a, Append(b, c))
    decreases a
  {
    if Next(a).Some? {
      AppendAssoc(Next(a).value, b, c);
    }
  }

  lemma {:induction false} ForwardFrom(acc: Cont, tasks: seq<BuilderTask>)
    ensures BuildList(tasks).Ok? <==> Forward(acc, tasks).Ok?
    ensures Forward(acc, tasks).Ok? ==>
      Forward(acc, tasks).value == if tasks == [] then acc else Append(acc, BuildList(tasks).value.value)
    decreases |tasks|
  {
    if tasks != [] {
      var t := tasks[0];
      BuildErrorNext(t, BuildList(tasks[1..]));
      if BuildOne(t, None).Ok? {
        var node := BuildOne(t, None).value;
        ForwardFrom(Append(acc, node), tasks[1..]);
        var rest := BuildList(tasks[1..]);
        if rest.Ok? {
          BuildThenAppend(t, rest.value, node);
          if tasks[1..] != [] {
            AppendAssoc(acc, node, rest.value.value);
          }
        }
      }
    }
  }

  /** Whether a task builds does not depend on what follows it. */
  lemma BuildErrorNext(t: BuilderTask, rest: Result<Option<Cont>, BuildError>)
    ensures rest.Ok? ==> (BuildOne(t, rest.value).Ok? <==> BuildOne(t, None).Ok?)
  {
  }

  /**
   Forward and backward construction agree: appending the tasks' nodes from the left succeeds exactly
   when folding them from the right does, and gives the same tree.
   */
  lemma ForwardIsBackward(tasks: seq<BuilderTask>)
    requires tasks != [] && BuildOne(tasks[0], None).Ok?
    ensures
      var forward := Forward(BuildOne(tasks[0], None).value, tasks[1..]);
      && (forward.Ok? <==> TreeOf(tasks).Ok?)
      && (forward.Ok? ==> forward.value == TreeOf(tasks).value)
  {
    var node := BuildOne(tasks[0], None).value;
    ForwardFrom(node, tasks[1..]);
    var rest := BuildList(tasks[1..]);
    BuildErrorNext(tasks[0], rest);
    if rest.Ok? {
      BuildThenAppend(tasks[0], rest.value, node);
    }
  }
}
