/** What a list of builder tasks computes, and when it cannot be built. */
module ListMeaning {
  import opened Prelude
  import opened Continuation
  import opened Semantics
  import opened Plan
  import opened PlanCorrectness
  import opened FlowBuilders
  import opened Construction

  // ----- the meaning of a list -----

  /** One task after the other. */
  function RunChain(env: Env, chain: TaskChain, x: Bytes): Run {
    if chain == [] then Run(Done(x), []) else
    var r := Invoke(env, chain[0].0, x);
    if r.out.Done? then After(r.calls, RunChain(env, chain[1..], r.out.value)) else r
  }

  /** All branches on the same input; results go by the names of the branches' first tasks. */
  function RunBranches(env: Env, branches: seq<TaskChain>, x: Bytes): Gathered {
    if branches == [] then Gathered(None, [], []) else
    var r := RunChain(env, branches[0], x);
    if !r.out.Done? then Gathered(Some(r.out), [], r.calls) else
    var g := RunBranches(env, branches[1..], x);
    var name := if branches[0] == [] then "" else branches[0][0].0;
    Gathered(g.stop, [(name, r.out.value)] + g.results, r.calls + g.calls)
  }

  /** The chain given last for the key. */
  function LastFor(routes: seq<(string, TaskChain)>, key: string): Option<TaskChain> {
    if routes == [] then None else
    var n := |routes| - 1;
    if routes[n].0 == key then Some(routes[n].1) else LastFor(routes[..n], key)
  }

  /** The body's task is repeated until it says otherwise, or the limit is reached. */
  function Repeat(env: Env, id: string, body: string, max: nat, onMax: OnMax, i: nat, x: Bytes): Run
    decreases max - i
  {
    if i >= max then
      Run(match onMax { case Fail => Failed(MaxIterationsExceeded(id, max)) case ExitWithLast => Done(x) }, [])
    else
      var r := Invoke(env, body, x);
      if !r.out.Done? then r else
      var d := env.decodeLoop(r.out.value);
      if d.Err? then Run(Failed(d.error), r.calls)
      else if d.value.0 == "done" then Run(Done(d.value.1), r.calls)
      else if d.value.0 == "again" then After(r.calls, Repeat(env, id, body, max, onMax, i + 1, d.value.1))
      else Run(Failed(UnknownLoopTag(d.value.0)), r.calls)
  }

  function RunTask(env: Env, signals: map<string, Bytes>, t: BuilderTask, x: Bytes): Run
    decreases t, 0
  {
    match t
    case Sequential(id, _) => Invoke(env, id, x)
    case DelayTask(_, _) => Run(Done(x), [])
    case AwaitSignalTask(id, name, timeout) =>
      if id !in signals then Run(Blocked(id), [])
      else if env.admits(name, signals[id]) || (timeout.Some? && signals[id] == []) then Run(Done(signals[id]), [])
      else Run(Blocked(id), [])
    case ForkTask(branches, joinId, _) =>
      var g := RunBranches(env, branches, x);
      if g.stop.Some? then Run(g.stop.value, g.calls) else
      var joined := env.encodeNamed(g.results);
      if joined.Err? then Run(Failed(joined.error), g.calls)
      else After(g.calls, Invoke(env, joinId, joined.value))
    case BranchTask(id, routes, default) =>
      var k := Invoke(env, id + "::key_fn", x);
      if !k.out.Done? then k else
      var key := env.decodeKey(k.out.value);
      if key.Err? then Run(Failed(key.error), k.calls) else
      var chain := if LastFor(routes, key.value).Some? then LastFor(routes, key.value) else default;
      if chain.None? then Run(Failed(BranchKeyNotFound(id, key.value)), k.calls) else
      var r := RunChain(env, chain.value, x);
      if !r.out.Done? then After(k.calls, r) else
      var wrapped := env.encodeEnvelope(key.value, r.out.value);
      After(k.calls, Run(if wrapped.Ok? then Done(wrapped.value) else Failed(wrapped.error), r.calls))
    case LoopTask(id, body, _, max, onMax) => Repeat(env, id, body, max, onMax, 0, x)
    case ChildTask(_, tasks) => RunList(env, signals, tasks, x)
  }

  function RunList(env: Env, signals: map<string, Bytes>, tasks: seq<BuilderTask>, x: Bytes): Run
    decreases tasks, 1
  {
    if tasks == [] then Run(Done(x), []) else
    var r := RunTask(env, signals, tasks[0], x);
    if r.out.Done? then After(r.calls, RunList(env, signals, tasks[1..], r.out.value)) else r
  }

  // ----- building keeps the meaning -----

  lemma {:induction false} ChainMeans(env: Env, labels: Labels, signals: map<string, Bytes>, chain: TaskChain, x: Bytes)
    requires chain != []
    ensures Eval(env, labels, signals, ChainOf(chain).value, x) == RunChain(env, chain, x)
    decreases |chain|
  {
    var r := Invoke(env, chain[0].0, x);
    if |chain| == 1 {
      assert r.calls + [] == r.calls;
    } else if r.out.Done? {
      ChainMeans(env, labels, signals, chain[1..], r.out.value);
    }
  }

  lemma {:induction false} BranchesMean(
      env: Env, labels: Labels, signals: map<string, Bytes>, chains: seq<TaskChain>, x: Bytes)
    requires ChainsOf(chains).Some?
    ensures EvalBranches(env, labels, signals, ChainsOf(chains).value, x) == RunBranches(env, chains, x)
    decreases |chains|
  {
    if chains != [] {
      ChainMeans(env, labels, signals, chains[0], x);
      BranchesMean(env, labels, signals, chains[1..], x);
      var c, rest := ChainOf(chains[0]).value, ChainsOf(chains[1..]).value;
      assert ChainsOf(chains).value[1..] == rest;
    }
  }

  lemma {:induction false} RoutesLast(routes: seq<(string, TaskChain)>, key: string)
    requires RoutesOf(routes).Some?
    ensures
      var m, chain := RoutesOf(routes).value, LastFor(routes, key);
      && (key in m <==> chain.Some?) && (chain.Some? ==> chain.value != [] && ChainOf(chain.value) == Some(m[key]))
    decreases |routes|
  {
    if routes != [] {
      RoutesLast(routes[..|routes| - 1], key);
    }
  }

  lemma {:induction false} LoopMeans(env: Env, labels: Labels, signals: map<string, Bytes>, c: Cont, i: nat, x: Bytes)
    requires c.Loop? && c.body.Task? && c.body.next.None?
    ensures EvalLoop(env, labels, signals, c, i, x) ==
      Repeat(env, c.id, c.body.id, c.maxIterations, c.onMax, i, x)
    decreases c.maxIterations - i
  {
    if i < c.maxIterations {
      var r := Invoke(env, c.body.id, x);
      assert Eval(env, labels, signals, c.body, x) == r;
      if r.out.Done? && env.decodeLoop(r.out.value).Ok? {
        LoopMeans(env, labels, signals, c, i + 1, env.decodeLoop(r.out.value).value.1);
      }
    }
  }

  /** What runs a task and then, on its result, whatever follows it. */
  function Before(env: Env, labels: Labels, signals: map<string, Bytes>, r: Run, next: Option<Cont>): Run {
    if r.out.Done? && next.Some? then After(r.calls, Eval(env, labels, signals, next.value, r.out.value)) else r
  }

  lemma {:induction false} OneMeans(
      env: Env, labels: Labels, signals: map<string, Bytes>, t: BuilderTask, next: Option<Cont>, x: Bytes)
    requires BuildOne(t, next).Ok?
    ensures Eval(env, labels, signals, BuildOne(t, next).value, x) ==
      Before(env, labels, signals, RunTask(env, signals, t, x), next)
    decreases t, 0
  {
    match t
    case ForkTask(_, _, _) => ForkMeans(env, labels, signals, t, next, x);
    case BranchTask(_, _, _) => BranchMeans(env, labels, signals, t, next, x);
    case LoopTask(_, _, _, _, _) => LoopMeans(env, labels, signals, BuildOne(t, next).value, 0, x);
    case ChildTask(_, tasks) => ListMeans(env, labels, signals, tasks, x);
    case _ =>
  }

  lemma ForkMeans(env: Env, labels: Labels, signals: map<string, Bytes>, t: BuilderTask, next: Option<Cont>, x: Bytes)
    requires t.ForkTask? && BuildOne(t, next).Ok?
    ensures Eval(env, labels, signals, BuildOne(t, next).value, x) ==
      Before(env, labels, signals, RunTask(env, signals, t, x), next)
  {
    BranchesMean(env, labels, signals, t.branches, x);
    var c := BuildOne(t, next).value;
    var g := RunBranches(env, t.branches, x);
    if g.stop.None? && env.encodeNamed(g.results).Ok? {
      var v := env.encodeNamed(g.results).value;
      var j := Invoke(env, t.joinId, v);
      assert Eval(env, labels, signals, c.join.value, v) == Before(env, labels, signals, j, next);
      if j.out.Done? && next.Some? {
        Regroup(g.calls, j.calls, Eval(env, labels, signals, next.value, j.out.value).calls);
      }
    }
    GatherStops(env, t.branches, x);
  }

  /** A fork is only stopped by a branch that has no result. */
  lemma {:induction false} GatherStops(env: Env, branches: seq<TaskChain>, x: Bytes)
    ensures var stop := RunBranches(env, branches, x).stop; stop.Some? ==> !stop.value.Done?
  {
    if branches != [] {
      GatherStops(env, branches[1..], x);
    }
  }

  lemma BranchMeans(env: Env, labels: Labels, signals: map<string, Bytes>, t: BuilderTask, next: Option<Cont>, x: Bytes)
    requires t.BranchTask? && BuildOne(t, next).Ok?
    ensures Eval(env, labels, signals, BuildOne(t, next).value, x) ==
      Before(env, labels, signals, RunTask(env, signals, t, x), next)
  {
    var c := BuildOne(t, next).value;
    var k := Invoke(env, t.branchId + "::key_fn", x);
    hide Eval, ChainOf, RoutesOf;
    if k.out.Done? && env.decodeKey(k.out.value).Ok? {
      var key := env.decodeKey(k.out.value).value;
      RoutesLast(t.routes, key);
      var chain := if LastFor(t.routes, key).Some? then LastFor(t.routes, key) else t.default;
      if chain.Some? {
        ChainMeans(env, labels, signals, chain.value, x);
        assert Choose(env, c, k.out.value) == Ok((key, ChainOf(chain.value).value));
      }
    }
    assert EvalNode(env, labels, signals, c, x) == RunTask(env, signals, t, x);
  }

  lemma {:induction false} ListMeans(
      env: Env, labels: Labels, signals: map<string, Bytes>, tasks: seq<BuilderTask>, x: Bytes)
    requires BuildList(tasks).Ok? && BuildList(tasks).value.Some?
    ensures Eval(env, labels, signals, BuildList(tasks).value.value, x) == RunList(env, signals, tasks, x)
    decreases tasks, 1
  {
    var rest := BuildList(tasks[1..]).value;
    OneMeans(env, labels, signals, tasks[0], rest, x);
    var r := RunTask(env, signals, tasks[0], x);
    hide BuildOne, RunTask, Eval;
    if r.out.Done? {
      if tasks[1..] == [] {
        assert r.calls + [] == r.calls;
      } else {
        ListMeans(env, labels, signals, tasks[1..], r.out.value);
      }
    }
  }

  /** A built tree computes what its list of tasks means, however fork results are named. */
  lemma BuiltTreeMeans(env: Env, labels: Labels, signals: map<string, Bytes>, tasks: seq<BuilderTask>, x: Bytes)
    requires TreeOf(tasks).Ok?
    ensures Eval(env, labels, signals, TreeOf(tasks).value, x) == RunList(env, signals, tasks, x)
  {
    ListMeans(env, labels, signals, tasks, x);
  }

  /** From the builder's calls to the stepper: the compiled plan of a built tree runs the list. */
  lemma BuiltPlanRuns(env: Env, tasks: seq<BuilderTask>, x: Bytes)
    requires TreeOf(tasks).Ok? && Flatten(TreeOf(tasks).value).Some?
    ensures
      var plan, r := RunPlan(env, Start(Flatten(TreeOf(tasks).value).value, x)), RunList(env, map[], tasks, x);
      && plan.calls == r.calls
      && (r.out.Done? ==> plan.out == Ok(Start([], r.out.value))) && (r.out.Failed? ==> plan.out == Err(r.out.error))
      && !r.out.Blocked?
  {
    BuilderGivesSteppable(tasks);
    CompilerCorrect(env, TreeOf(tasks).value, x);
    BuiltTreeMeans(env, ByFirstTask, map[], tasks, x);
  }

  // ----- lists that cannot be built -----

  /** What is wrong with a task, if anything. */
  function Fault(t: BuilderTask): Option<BuildError>
    decreases t, 0
  {
    match t
    case ForkTask(branches, _, _) => if [] in branches then Some(EmptyBranch) else None
    case BranchTask(_, routes, default) =>
      if (exists r :: r in routes && r.1 == []) || default == Some([]) then Some(EmptyBranch) else None
    case LoopTask(id, _, _, max, _) => if max == 0 then Some(InvalidMaxIterations(id)) else None
    case ChildTask(_, tasks) => if tasks == [] then Some(EmptyWorkflow) else LastFault(tasks)
    case _ => None
  }

  /** The fault of the last faulty task. */
  function LastFault(tasks: seq<BuilderTask>): Option<BuildError>
    decreases tasks, 1
  {
    if tasks == [] then None else
    var later := LastFault(tasks[1..]);
    if later.Some? then later else Fault(tasks[0])
  }

  lemma {:induction false} ChainsFault(chains: seq<TaskChain>)
    ensures ChainsOf(chains).None? <==> [] in chains
  {
    if chains != [] {
      ChainsFault(chains[1..]);
      assert chains == [chains[0]] + chains[1..];
    }
  }

  lemma {:induction false} RoutesFault(routes: seq<(string, TaskChain)>)
    ensures RoutesOf(routes).None? <==> exists r :: r in routes && r.1 == []
    decreases |routes|
  {
    if routes != [] {
      var n := |routes| - 1;
      RoutesFault(routes[..n]);
      assert routes == routes[..n] + [routes[n]];
      assert routes[n].1 == [] ==> routes[n] in routes;
    }
  }

  lemma {:induction false} OneFault(t: BuilderTask, next: Option<Cont>)
    ensures BuildOne(t, next).Ok? <==> Fault(t).None?
    ensures BuildOne(t, next).Err? ==> Fault(t) == Some(BuildOne(t, next).error)
    decreases t, 0
  {
    match t
    case ForkTask(branches, _, _) => ChainsFault(branches);
    case BranchTask(_, routes, _) => RoutesFault(routes);
    case ChildTask(_, tasks) => ListFault(tasks);
    case _ =>
  }

  lemma {:induction false} ListFault(tasks: seq<BuilderTask>)
    ensures BuildList(tasks).Ok? <==> LastFault(tasks).None?
    ensures BuildList(tasks).Err? ==> LastFault(tasks) == Some(BuildList(tasks).error)
    decreases tasks, 1
  {
    if tasks != [] {
      ListFault(tasks[1..]);
      if BuildList(tasks[1..]).Ok? {
        OneFault(tasks[0], BuildList(tasks[1..]).value);
      }
    }
  }

  /** Building fails exactly on the empty list and on lists with a faulty task, and reports the last fault. */
  lemma BuildFailsExactly(tasks: seq<BuilderTask>)
    ensures TreeOf(tasks).Ok? <==> tasks != [] && LastFault(tasks).None?
    ensures tasks == [] ==> TreeOf(tasks) == Err(EmptyWorkflow)
    ensures LastFault(tasks).Some? ==> TreeOf(tasks) == Err(LastFault(tasks).value)
  {
    ListFault(tasks);
  }

  // ----- the ids of forks -----

  /** The parts of a text between double bars. */
  function Split(s: string): (parts: seq<string>)
    ensures parts != []
  {
    if |s| < 2 then [s]
    else if s[..2] == "||" then [""] + Split(s[2..])
    else var rest := Split(s[1..]); [[s[0]] + rest[0]] + rest[1..]
  }

  lemma {:induction false} SplitPlain(a: string)
    requires '|' !in a
    ensures Split(a) == [a]
  {
    if |a| >= 2 {
      SplitPlain(a[1..]);
      assert a == [a[0]] + a[1..];
    }
  }

  lemma {:induction false} SplitAfter(a: string, rest: string)
    requires '|' !in a
    ensures Split(a + "||" + rest) == [a] + Split(rest)
  {
    var s := a + "||" + rest;
    if a == [] {
      assert s[..2] == "||" && s[2..] == rest;
    } else {
      SplitAfter(a[1..], rest);
      assert s[0] == a[0] && s[1..] == a[1..] + "||" + rest;
      assert a == [a[0]] + a[1..];
    }
  }

  function Firsts(chains: seq<TaskChain>): seq<string> {
    if chains == [] then [] else
    (if chains[0] == [] then [] else [chains[0][0].0]) + Firsts(chains[1..])
  }

  /** A fork's id spells out the first tasks of its branches, which can be read off it. */
  lemma {:induction false} ForkIdReads(chains: seq<TaskChain>)
    requires chains != []
    requires forall i :: 0 <= i < |chains| ==> chains[i] != [] && '|' !in chains[i][0].0
    ensures Split(ForkId(chains)) == Firsts(chains)
    decreases |chains|
  {
    var id := chains[0][0].0;
    if |chains| == 1 {
      SplitPlain(id);
    } else {
      assert chains[1] in chains[1..];
      ForkIdReads(chains[1..]);
      SplitAfter(id, ForkId(chains[1..]));
    }
  }
}
