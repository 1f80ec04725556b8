/**
 The stepper's execution plan: `Flatten` compiles a continuation tree to a linear list of planned
 steps, and `RunPlan` is the machine that executes it. Branch and loop steps splice further steps
 into the plan while it runs, so the machine's termination rests on `Weight`.
 */
module Plan {
  import opened Prelude
  import opened Continuation
  import opened Semantics

  /** A nested step list, as carried by branch and loop steps. */
  datatype StepList = StepList(steps: seq<PlannedStep>)

  datatype PlannedStep =
    | TaskStep(id: string)
    | RestoreForkInput
    | SaveBranchResult(branchId: string)
    | CollectBranches
    | SaveBranchInput
    | BranchDispatch(branchId: string, routes: map<string, StepList>, default: Option<StepList>)
    | WrapBranchEnvelope(key: string)
    | LoopStart(loopId: string, body: StepList, maxIterations: nat, onMax: OnMax)
    | LoopCheck(loopId: string, body: StepList, maxIterations: nat, onMax: OnMax, iteration: nat)

  /** The machine: what is left of the plan, the current value and the three stacks (top last). */
  datatype Machine = Machine(
    plan: seq<PlannedStep>,
    current: Bytes,
    forkInputs: seq<Bytes>,
    branchResults: seq<seq<(string, Bytes)>>,
    branchInputs: seq<Bytes>)

  // ----- compilation -----

  /** The plan of the chain starting at `c`, or `None` if it contains a signal wait. */
  function Flatten(c: Cont): Option<seq<PlannedStep>>
    decreases c, 2
  {
    var head := FlattenNode(c);
    if head.None? || Next(c).None? then head else
    var tail := Flatten(Next(c).value);
    if tail.None? then None else Some(head.value + tail.value)
  }

  function FlattenNode(c: Cont): Option<seq<PlannedStep>>
    decreases c, 1
  {
    match c
    case Task(id, _, _, _) => Some([TaskStep(id)])
    case Delay(_, _, _) => Some([])
    case AwaitSignal(_, _, _, _) => None
    case Fork(_, branches, _) =>
      var b := FlattenBranches(branches);
      if b.None? then None else Some(b.value + [CollectBranches])
    case Branch(id, _, routes, default, _) =>
      if (exists k :: k in routes && Flatten(routes[k]).None?)
         || (default.Some? && Flatten(default.value).None?) then None else
      Some([SaveBranchInput, TaskStep(KeyFnId(id)),
            BranchDispatch(id, map k | k in routes :: StepList(Flatten(routes[k]).value),
                           if default.Some? then Some(StepList(Flatten(default.value).value)) else None)])
    case Loop(id, body, max, onMax, _) =>
      var b := Flatten(body);
      if b.None? then None else Some([LoopStart(id, StepList(b.value), max, onMax)])
    case ChildWorkflow(_, child, _) => Flatten(child)
  }

  function FlattenBranches(branches: seq<Cont>): Option<seq<PlannedStep>>
    decreases branches, 3
  {
    if branches == [] then Some([]) else
    var p := Flatten(branches[0]);
    if p.None? then None else
    var rest := FlattenBranches(branches[1..]);
    if rest.None? then None else
    Some(BranchSteps(branches[0], p.value) + rest.value)
  }

  /** Each branch restores the fork input, runs, and saves its result under its first task's id. */
  function BranchSteps(b: Cont, plan: seq<PlannedStep>): seq<PlannedStep> {
    [RestoreForkInput] + plan + [SaveBranchResult(FirstTaskId(b))]
  }

  // ----- termination measure -----

  ghost function MaxOf(s: set<nat>): (m: nat)
    ensures forall x :: x in s ==> x <= m
    decreases |s|
  {
    if s == {} then 0 else
    var x :| x in s;
    var r := MaxOf(s - {x});
    assert forall y :: y in s ==> y == x || y in s - {x};
    if x <= r then r else x
  }

  /** How many machine steps a planned step can still cost, spliced steps included. */
  ghost function StepWeight(s: PlannedStep): (w: nat)
    ensures w >= 1
    decreases s
  {
    match s
    case BranchDispatch(_, routes, default) =>
      2 + MaxOf(set k | k in routes :: Weight(routes[k].steps))
        + (if default.Some? then Weight(default.value.steps) else 0)
    case LoopStart(_, body, max, _) =>
      2 + Weight(body.steps) + Times(Rounds(max, 0), Weight(body.steps) + 1)
    case LoopCheck(_, body, max, _, i) =>
      1 + Times(Rounds(max, i), Weight(body.steps) + 1)
    case _ => 1
  }

  /** The repetitions a loop may still ask for after iteration `i`. */
  function Rounds(max: nat, i: nat): nat {
    if i + 1 < max then max - i - 1 else 0
  }

  function Times(n: nat, w: nat): nat {
    if n == 0 then 0 else w + Times(n - 1, w)
  }

  ghost function Weight(plan: seq<PlannedStep>): nat
    decreases plan
  {
    if plan == [] then 0 else StepWeight(plan[0]) + Weight(plan[1..])
  }

  lemma {:induction false} WeightAppend(a: seq<PlannedStep>, b: seq<PlannedStep>)
    ensures Weight(a + b) == Weight(a) + Weight(b)
  {
    if a == [] {
      assert a + b == b;
    } else {
      assert (a + b)[1..] == a[1..] + b;
      WeightAppend(a[1..], b);
    }
  }

  // ----- the machine -----

  /** One step other than a task: stack bookkeeping, or splicing a route or a loop body. */
  function Advance(env: Env, m: Machine): (r: Result<Machine, Error>)
    requires m.plan != [] && !m.plan[0].TaskStep?
    ensures r.Ok? ==> Weight(r.value.plan) < Weight(m.plan)
  {
    var rest := m.plan[1..];
    match m.plan[0]
    case RestoreForkInput =>
      if m.forkInputs != [] then
        Ok(m.(plan := rest, current := m.forkInputs[|m.forkInputs| - 1]))
      else
        Ok(m.(plan := rest, forkInputs := m.forkInputs + [m.current], branchResults := m.branchResults + [[]]))
    case SaveBranchResult(branchId) =>
      if m.branchResults != [] then
        var top := |m.branchResults| - 1;
        Ok(m.(plan := rest,
              branchResults := m.branchResults[top := m.branchResults[top] + [(branchId, m.current)]]))
      else
        Ok(m.(plan := rest))
    case CollectBranches =>
      var results := if m.branchResults != [] then m.branchResults[|m.branchResults| - 1] else [];
      var encoded := env.encodeNamed(results);
      if encoded.Err? then Err(encoded.error) else
      Ok(m.(plan := rest, current := encoded.value,
            forkInputs := Pop(m.forkInputs), branchResults := Pop(m.branchResults)))
    case SaveBranchInput =>
      Ok(m.(plan := rest, branchInputs := m.branchInputs + [m.current]))
    case BranchDispatch(branchId, routes, default) =>
      var key := env.decodeKey(m.current);
      if key.Err? then Err(key.error) else
      var chosen := if key.value in routes then Some(routes[key.value]) else default;
      if chosen.None? then Err(BranchKeyNotFound(branchId, key.value)) else
      var input := if m.branchInputs != [] then m.branchInputs[|m.branchInputs| - 1] else m.current;
      DispatchShrinks(m.plan, key.value, chosen.value);
      Ok(m.(plan := chosen.value.steps + [WrapBranchEnvelope(key.value)] + rest,
            current := input, branchInputs := Pop(m.branchInputs)))
    case WrapBranchEnvelope(key) =>
      var wrapped := env.encodeEnvelope(key, m.current);
      if wrapped.Err? then Err(wrapped.error) else Ok(m.(plan := rest, current := wrapped.value))
    case LoopStart(id, body, max, onMax) =>
      LoopShrinks(m.plan, 0);
      Ok(m.(plan := body.steps + [LoopCheck(id, body, max, onMax, 0)] + rest))
    case LoopCheck(id, body, max, onMax, i) =>
      var d := env.decodeLoop(m.current);
      if d.Err? then Err(d.error)
      else if d.value.0 == "done" then Ok(m.(plan := rest, current := d.value.1))
      else if d.value.0 == "again" then
        if i + 1 >= max then
          if onMax.Fail? then Err(MaxIterationsExceeded(id, max))
          else Ok(m.(plan := rest, current := d.value.1))
        else
          LoopShrinks(m.plan, i + 1);
          Ok(m.(plan := body.steps + [LoopCheck(id, body, max, onMax, i + 1)] + rest, current := d.value.1))
      else Err(UnknownLoopTag(d.value.0))
  }

  function Pop<T>(s: seq<T>): seq<T> {
    if s == [] then s else s[..|s| - 1]
  }

  lemma DispatchShrinks(plan: seq<PlannedStep>, key: string, chosen: StepList)
    requires plan != [] && plan[0].BranchDispatch?
    requires if key in plan[0].routes then chosen == plan[0].routes[key] else plan[0].default == Some(chosen)
    ensures Weight(chosen.steps + [WrapBranchEnvelope(key)] + plan[1..]) < Weight(plan)
  {
    WeightAppend(chosen.steps + [WrapBranchEnvelope(key)], plan[1..]);
    WeightAppend(chosen.steps, [WrapBranchEnvelope(key)]);
    if key in plan[0].routes {
      var routes := plan[0].routes;
      var weights := set k | k in routes :: Weight(routes[k].steps);
      assert Weight(routes[key].steps) in weights;
      assert StepWeight(plan[0]) >= 2 + MaxOf(weights);
    }
  }

  lemma LoopShrinks(plan: seq<PlannedStep>, i: nat)
    requires plan != [] && (plan[0].LoopStart? || plan[0].LoopCheck?)
    requires plan[0].LoopStart? ==> i == 0
    requires plan[0].LoopCheck? ==> i == plan[0].iteration + 1 && i < plan[0].maxIterations
    ensures var s := plan[0];
      Weight(s.body.steps + [LoopCheck(s.loopId, s.body, s.maxIterations, s.onMax, i)] + plan[1..]) < Weight(plan)
  {
    var s := plan[0];
    var check := LoopCheck(s.loopId, s.body, s.maxIterations, s.onMax, i);
    WeightAppend(s.body.steps + [check], plan[1..]);
    WeightAppend(s.body.steps, [check]);
    if s.LoopCheck? {
      assert Rounds(s.maxIterations, i - 1) == Rounds(s.maxIterations, i) + 1;
    }
  }

  /** Runs the steps up to the next task, or to the end of the plan. */
  function Skip(env: Env, m: Machine): (r: Result<Machine, Error>)
    ensures r.Ok? ==> r.value.plan == [] || r.value.plan[0].TaskStep?
    ensures r.Ok? ==> Weight(r.value.plan) <= Weight(m.plan)
    decreases Weight(m.plan)
  {
    if m.plan == [] || m.plan[0].TaskStep? then Ok(m) else
    var next := Advance(env, m);
    if next.Err? then next else Skip(env, next.value)
  }

  /** The finished machine (or the error that stopped it) and the task calls made on the way. */
  datatype PlanRun = PlanRun(out: Result<Machine, Error>, calls: seq<Call>)

  function PlanAfter(calls: seq<Call>, r: PlanRun): PlanRun {
    PlanRun(r.out, calls + r.calls)
  }

  /** The task at the head of the plan was run on the current value and returned `v`. */
  function Submit(m: Machine, v: Bytes): Machine
    requires m.plan != []
  {
    m.(plan := m.plan[1..], current := v)
  }

  function RunPlan(env: Env, m: Machine): (r: PlanRun)
    ensures |r.calls| <= Weight(m.plan)
    ensures r.out.Ok? ==> r.out.value.plan == []
    decreases Weight(m.plan)
  {
    if m.plan == [] then PlanRun(Ok(m), [])
    else if m.plan[0].TaskStep? then
      var call := Call(m.plan[0].id, m.current);
      var v := env.task(call.id, call.input);
      if v.Err? then PlanRun(Err(v.error), [call]) else PlanAfter([call], RunPlan(env, Submit(m, v.value)))
    else
      var next := Advance(env, m);
      if next.Err? then PlanRun(Err(next.error), []) else RunPlan(env, next.value)
  }

  /** The machine the stepper starts with. */
  function Start(plan: seq<PlannedStep>, x: Bytes): Machine {
    Machine(plan, x, [], [], [])
  }
}
