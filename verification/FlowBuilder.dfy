/**
 Building continuation trees: the flow builder collects builder tasks and folds them from the back;
 typed builders append node by node from the front. Both give the same tree.
 */
module FlowBuilders {
  import opened Prelude
  import opened Continuation

  /** A duration given by the caller, in seconds. */
  datatype Seconds = Finite(value: real) | NotFinite

  type TaskChain = seq<(string, TaskMeta)>

  datatype BuilderTask =
    | Sequential(taskId: string, metadata: TaskMeta)
    | ForkTask(branches: seq<TaskChain>, joinId: string, joinMetadata: TaskMeta)
    | DelayTask(delayId: string, duration: Seconds)
    | AwaitSignalTask(signalId: string, signalName: string, timeout: Option<Seconds>)
    | BranchTask(branchId: string, routes: seq<(string, TaskChain)>, default: Option<TaskChain>)
    | LoopTask(loopId: string, bodyTaskId: string, bodyMetadata: TaskMeta, maxIterations: nat, onMax: OnMax)
    | ChildTask(childId: string, childTasks: seq<BuilderTask>)

  datatype BuildError =
    | EmptyWorkflow
    | EmptyFork
    | EmptyBranch
    | InvalidMaxIterations(loopId: string)
    | InvalidDuration(what: string)

  function Nanos(s: Seconds): nat {
    if s.Finite? && s.value >= 0.0 then (s.value * 1_000_000_000.0).Floor else 0
  }

  function ValidDuration(s: Seconds): bool {
    s.Finite? && s.value >= 0.0
  }

  // ----- the tree a task list stands for -----

  /** A chain of tasks, or `None` if there are none. */
  function ChainOf(chain: TaskChain): Option<Cont> {
    if chain == [] then None
    else Some(Task(chain[0].0, None, chain[0].1, ChainOf(chain[1..])))
  }

  function ChainsOf(chains: seq<TaskChain>): Option<seq<Cont>> {
    if chains == [] then Some([]) else
    var c, rest := ChainOf(chains[0]), ChainsOf(chains[1..]);
    if c.None? || rest.None? then None else Some([c.value] + rest.value)
  }

  /** The last chain given for a key wins. */
  function RoutesOf(routes: seq<(string, TaskChain)>): Option<map<string, Cont>> {
    if routes == [] then Some(map[]) else
    var n := |routes| - 1;
    var c, rest := ChainOf(routes[n].1), RoutesOf(routes[..n]);
    if c.None? || rest.None? then None else Some(rest.value[routes[n].0 := c.value])
  }

  /** The first tasks of the branches, joined with `||`. */
  function ForkId(chains: seq<TaskChain>): string {
    if chains == [] then ""
    else if chains[0] == [] then ForkId(chains[1..])
    else if forall c :: c in chains[1..] ==> c == [] then chains[0][0].0
    else chains[0][0].0 + "||" + ForkId(chains[1..])
  }

  function BuildOne(t: BuilderTask, next: Option<Cont>): Result<Cont, BuildError>
    decreases t, 0
  {
    match t
    case Sequential(id, meta) => Ok(Task(id, None, meta, next))
    case DelayTask(id, d) => Ok(Delay(id, Nanos(d), next))
    case AwaitSignalTask(id, name, timeout) =>
      Ok(AwaitSignal(id, name, if timeout.Some? then Some(Nanos(timeout.value)) else None, next))
    case ForkTask(branches, joinId, joinMeta) =>
      var bs := ChainsOf(branches);
      if bs.None? then Err(EmptyBranch)
      else Ok(Fork(ForkId(branches), bs.value, Some(Task(joinId, None, joinMeta, next))))
    case BranchTask(id, routes, default) =>
      var rs := RoutesOf(routes);
      if rs.None? || (default.Some? && default.value == []) then Err(EmptyBranch)
      else Ok(Branch(id, None, rs.value, if default.Some? then ChainOf(default.value) else None, next))
    case LoopTask(id, bodyId, bodyMeta, max, onMax) =>
      if max == 0 then Err(InvalidMaxIterations(id))
      else Ok(Loop(id, Task(bodyId, None, bodyMeta, None), max, onMax, next))
    case ChildTask(id, tasks) =>
      var child := BuildList(tasks);
      if child.Err? then Err(child.error)
      else if child.value.None? then Err(EmptyWorkflow)
      else Ok(ChildWorkflow(id, child.value.value, next))
  }

  /** The list is folded from the back, so the last faulty task is the one reported. */
  function BuildList(tasks: seq<BuilderTask>): Result<Option<Cont>, BuildError>
    decreases tasks, 1
  {
    if tasks == [] then Ok(None) else
    var rest := BuildList(tasks[1..]);
    if rest.Err? then rest else
    var c := BuildOne(tasks[0], rest.value);
    if c.Err? then Err(c.error) else Ok(Some(c.value))
  }

  function TreeOf(tasks: seq<BuilderTask>): Result<Cont, BuildError> {
    var c := BuildList(tasks);
    if c.Err? then Err(c.error) else if c.value.None? then Err(EmptyWorkflow) else Ok(c.value.value)
  }

  // ----- the builder object -----

  /** What the builder's own checks guarantee of a collected task. */
  predicate Accepted(t: BuilderTask) {
    match t
    case ForkTask(branches, _, _) => branches != [] && forall b :: b in branches ==> b != []
    case DelayTask(_, d) => ValidDuration(d)
    case AwaitSignalTask(_, _, timeout) => timeout.Some? ==> ValidDuration(timeout.value)
    case BranchTask(_, routes, _) => routes != [] && forall r :: r in routes ==> r.1 != []
    case LoopTask(_, _, _, max, _) => max >= 1
    case ChildTask(_, tasks) => forall t' :: t' in tasks ==> Accepted(t')
    case Sequential(_, _) => true
  }

  class FlowBuilder {
    var tasks: seq<BuilderTask>
    var lambdaCounter: nat
    var loopCounter: nat
    var branchCounter: nat

    constructor ()
      ensures tasks == [] && lambdaCounter == loopCounter == branchCounter == 0 && Valid()
    {
      tasks, lambdaCounter, loopCounter, branchCounter := [], 0, 0, 0;
    }

    /** Every task collected through the builder passed its checks. */
    ghost predicate Valid()
      reads this
    {
      forall t :: t in tasks ==> Accepted(t)
    }

    method NextLambdaId() returns (id: string)
      modifies this
      ensures id == "lambda_" + Digits(old(lambdaCounter)) && lambdaCounter == old(lambdaCounter) + 1
      ensures tasks == old(tasks) && unchanged(`loopCounter, `branchCounter)
    {
      id := "lambda_" + Digits(lambdaCounter);
      lambdaCounter := lambdaCounter + 1;
    }

    method AddSequential(taskId: string, metadata: TaskMeta)
      modifies this
      ensures tasks == old(tasks) + [Sequential(taskId, metadata)]
      ensures old(Valid()) ==> Valid()
      ensures unchanged(`lambdaCounter, `loopCounter, `branchCounter)
    {
      tasks := tasks + [Sequential(taskId, metadata)];
    }

    method AddFork(branches: seq<TaskChain>, joinId: string, joinMetadata: TaskMeta) returns (r: Result<(), BuildError>)
      modifies this
      ensures r.Ok? <==> Accepted(ForkTask(branches, joinId, joinMetadata))
      ensures r.Err? ==> r.error == if branches == [] then EmptyFork else EmptyBranch
      ensures tasks == old(tasks) + if r.Ok? then [ForkTask(branches, joinId, joinMetadata)] else []
      ensures old(Valid()) ==> Valid()
      ensures unchanged(`lambdaCounter, `loopCounter, `branchCounter)
    {
      if branches == [] {
        return Err(EmptyFork);
      }
      for i := 0 to |branches|
        invariant forall j :: 0 <= j < i ==> branches[j] != []
        invariant unchanged(this)
      {
        if branches[i] == [] {
          assert branches[i] in branches;
          return Err(EmptyBranch);
        }
      }
      tasks := tasks + [ForkTask(branches, joinId, joinMetadata)];
      return Ok(());
    }

    method AddDelay(delayId: string, duration: Seconds) returns (r: Result<(), BuildError>)
      modifies this
      ensures r == if ValidDuration(duration) then Ok(()) else Err(InvalidDuration("delay duration"))
      ensures tasks == old(tasks) + if r.Ok? then [DelayTask(delayId, duration)] else []
      ensures old(Valid()) ==> Valid()
      ensures unchanged(`lambdaCounter, `loopCounter, `branchCounter)
    {
      if !ValidDuration(duration) {
        return Err(InvalidDuration("delay duration"));
      }
      tasks := tasks + [DelayTask(delayId, duration)];
      return Ok(());
    }

    method AddSignal(signalId: string, signalName: string, timeout: Option<Seconds>) returns (r: Result<(), BuildError>)
      modifies this
      ensures r.Ok? <==> Accepted(AwaitSignalTask(signalId, signalName, timeout))
      ensures r.Err? ==> r.error == InvalidDuration("timeout")
      ensures tasks == old(tasks) + if r.Ok? then [AwaitSignalTask(signalId, signalName, timeout)] else []
      ensures old(Valid()) ==> Valid()
      ensures unchanged(`lambdaCounter, `loopCounter, `branchCounter)
    {
      if timeout.Some? && !ValidDuration(timeout.value) {
        return Err(InvalidDuration("timeout"));
      }
      tasks := tasks + [AwaitSignalTask(signalId, signalName, timeout)];
      return Ok(());
    }

    method AddLoop(
        bodyTaskId: string, bodyMetadata: TaskMeta, maxIterations: nat,
        onMax: OnMax) returns (r: Result<string, BuildError>)
      modifies this
      ensures r.Ok? <==> maxIterations >= 1
      ensures var id := "loop_" + Digits(old(loopCounter));
        && r == (if maxIterations >= 1 then Ok(id) else Err(InvalidMaxIterations(id)))
        && tasks == old(tasks) + (if r.Ok? then [LoopTask(id, bodyTaskId, bodyMetadata, maxIterations, onMax)] else [])
        && loopCounter == old(loopCounter) + if r.Ok? then 1 else 0
      ensures old(Valid()) ==> Valid()
      ensures unchanged(`lambdaCounter, `branchCounter)
    {
      var id := "loop_" + Digits(loopCounter);
      if maxIterations == 0 {
        return Err(InvalidMaxIterations(id));
      }
      loopCounter := loopCounter + 1;
      tasks := tasks + [LoopTask(id, bodyTaskId, bodyMetadata, maxIterations, onMax)];
      return Ok(id);
    }

    method AddBranch(
        routes: seq<(string, TaskChain)>, default: Option<TaskChain>) returns (r: Result<string, BuildError>)
      modifies this
      ensures r.Ok? <==> routes != [] && forall e :: e in routes ==> e.1 != []
      ensures var id := "branch_" + Digits(old(branchCounter));
        && r == (if r.Ok? then Ok(id) else Err(EmptyBranch))
        && tasks == old(tasks) + (if r.Ok? then [BranchTask(id, routes, default)] else [])
        && branchCounter == old(branchCounter) + if r.Ok? then 1 else 0
      ensures old(Valid()) ==> Valid()
      ensures unchanged(`lambdaCounter, `loopCounter)
    {
      if routes == [] {
        return Err(EmptyBranch);
      }
      for i := 0 to |routes|
        invariant forall j :: 0 <= j < i ==> routes[j].1 != []
        invariant unchanged(this)
      {
        if routes[i].1 == [] {
          return Err(EmptyBranch);
        }
      }
      var id := "branch_" + Digits(branchCounter);
      branchCounter := branchCounter + 1;
      tasks := tasks + [BranchTask(id, routes, default)];
      return Ok(id);
    }

    method AddChildWorkflow(childId: string, childTasks: seq<BuilderTask>)
      modifies this
      ensures tasks == old(tasks) + [ChildTask(childId, childTasks)]
      ensures old(Valid()) && (forall t :: t in childTasks ==> Accepted(t)) ==> Valid()
      ensures unchanged(`lambdaCounter, `loopCounter, `branchCounter)
    {
      tasks := tasks + [ChildTask(childId, childTasks)];
    }

    method Build() returns (r: Result<Cont, BuildError>)
      ensures r == TreeOf(tasks)
    {
      r := BuildContinuation(tasks);
    }
  }

  /** Folds a chain of tasks from the back. */
  method BuildChain(chain: TaskChain) returns (r: Result<Cont, BuildError>)
    ensures r == if chain == [] then Err(EmptyBranch) else Ok(ChainOf(chain).value)
  {
    var current: Option<Cont> := None;
    var i := |chain|;
    while i > 0
      invariant 0 <= i <= |chain|
      invariant current == ChainOf(chain[i..])
    {
      i := i - 1;
      assert chain[i..][1..] == chain[i + 1..];
      current := Some(Task(chain[i].0, None, chain[i].1, current));
    }
    assert chain[0..] == chain;
    return if current.None? then Err(EmptyBranch) else Ok(current.value);
  }

  method BuildChains(chains: seq<TaskChain>) returns (r: Result<seq<Cont>, BuildError>)
    ensures r == if ChainsOf(chains).None? then Err(EmptyBranch) else Ok(ChainsOf(chains).value)
  {
    var i, conts := |chains|, [];
    while i > 0
      invariant 0 <= i <= |chains|
      invariant ChainsOf(chains[i..]) == Some(conts)
    {
      i := i - 1;
      assert chains[i..][1..] == chains[i + 1..];
      var c := BuildChain(chains[i]);
      if c.Err? {
        ChainsFail(chains, i);
        return Err(EmptyBranch);
      }
      conts := [c.value] + conts;
    }
    assert chains[0..] == chains;
    return Ok(conts);
  }

  lemma {:induction false} ChainsFail(chains: seq<TaskChain>, i: nat)
    requires i < |chains| && chains[i] == []
    ensures ChainsOf(chains).None?
  {
    if i > 0 {
      ChainsFail(chains[1..], i - 1);
    }
  }

  method BuildRoutes(routes: seq<(string, TaskChain)>) returns (r: Result<map<string, Cont>, BuildError>)
    ensures r == if RoutesOf(routes).None? then Err(EmptyBranch) else Ok(RoutesOf(routes).value)
  {
    var conts: map<string, Cont> := map[];
    for i := 0 to |routes|
      invariant RoutesOf(routes[..i]) == Some(conts)
    {
      assert routes[..i + 1][..i] == routes[..i];
      var c := BuildChain(routes[i].1);
      if c.Err? {
        RoutesFail(routes, i);
        return Err(EmptyBranch);
      }
      conts := conts[routes[i].0 := c.value];
    }
    assert routes[..|routes|] == routes;
    return Ok(conts);
  }

  lemma {:induction false} RoutesFail(routes: seq<(string, TaskChain)>, i: nat)
    requires i < |routes| && routes[i].1 == []
    ensures RoutesOf(routes).None?
  {
    if i < |routes| - 1 {
      RoutesFail(routes[..|routes| - 1], i);
    }
  }

  /** Folds the task list from the back, building children recursively. */
  method BuildContinuation(tasks: seq<BuilderTask>) returns (r: Result<Cont, BuildError>)
    ensures r == TreeOf(tasks)
    decreases tasks
  {
    if tasks == [] {
      return Err(EmptyWorkflow);
    }
    var current: Option<Cont> := None;
    var i := |tasks|;
    while i > 0
      invariant 0 <= i <= |tasks|
      invariant BuildList(tasks[i..]) == Ok(current)
      invariant i < |tasks| ==> current.Some?
    {
      i := i - 1;
      var t := tasks[i];
      assert tasks[i..][1..] == tasks[i + 1..];
      var built: Result<Cont, BuildError>;
      match t {
        case ForkTask(branches, joinId, joinMetadata) =>
          var bs := BuildChains(branches);
          built := if bs.Err? then Err(bs.error)
                   else Ok(Fork(ForkId(branches), bs.value, Some(Task(joinId, None, joinMetadata, current))));
        case BranchTask(id, routes, default) =>
          var rs := BuildRoutes(routes);
          if rs.Err? {
            built := Err(rs.error);
          } else if default.Some? {
            var d := BuildChain(default.value);
            built := if d.Err? then Err(d.error) else Ok(Branch(id, None, rs.value, Some(d.value), current));
          } else {
            built := Ok(Branch(id, None, rs.value, None, current));
          }
        case ChildTask(id, childTasks) =>
          var child := BuildContinuation(childTasks);
          built := if child.Err? then Err(child.error) else Ok(ChildWorkflow(id, child.value, current));
        case _ => built := BuildOne(t, current);
      }
      assert built == BuildOne(t, current);
      if built.Err? {
        BuildFails(tasks, i);
        return Err(built.error);
      }
      current := Some(built.value);
    }
    assert tasks[0..] == tasks;
    return Ok(current.value);
  }

  /** Tasks before a faulty one do not change the report. */
  lemma {:induction false} BuildFails(tasks: seq<BuilderTask>, i: nat)
    requires i < |tasks| && BuildList(tasks[i..]).Err?
    ensures BuildList(tasks) == BuildList(tasks[i..])
    decreases tasks
  {
    if i == 0 {
      assert tasks[0..] == tasks;
    } else {
      assert tasks[1..][i - 1..] == tasks[i..];
      BuildFails(tasks[1..], i - 1);
    }
  }
}
