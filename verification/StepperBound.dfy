/** How many task submissions a stepper run can take, computed from the tree alone. */
module StepperBound {
  import opened Prelude
  import opened Continuation
  import opened Semantics
  import opened Plan

  function Larger(a: nat, b: nat): nat {
    if a < b then b else a
  }

  // ----- on the tree -----

  /** A branch node takes its key function and its longest route; a loop runs its body at least once. */
  ghost function Submissions(c: Cont): nat
    decreases c, 1
  {
    NodeSubmissions(c) + if Next(c).Some? then Submissions(Next(c).value) else 0
  }

  ghost function NodeSubmissions(c: Cont): nat
    decreases c, 0
  {
    match c
    case Task(_, _, _, _) => 1
    case Delay(_, _, _) => 0
    case AwaitSignal(_, _, _, _) => 0
    case Fork(_, branches, _) => BranchSubmissions(branches)
    case Branch(_, _, routes, default, _) =>
      1 + Larger(MaxOf(set k | k in routes :: Submissions(routes[k])),
        if default.Some? then Submissions(default.value) else 0)
    case Loop(_, body, max, _, _) => Submissions(body) + Times(Rounds(max, 0), Submissions(body))
    case ChildWorkflow(_, child, _) => Submissions(child)
  }

  ghost function BranchSubmissions(branches: seq<Cont>): nat
    decreases branches, 2
  {
    if branches == [] then 0 else Submissions(branches[0]) + BranchSubmissions(branches[1..])
  }

  // ----- on the plan -----

  ghost function Tasks(plan: seq<PlannedStep>): nat
    decreases plan
  {
    if plan == [] then 0 else StepTasks(plan[0]) + Tasks(plan[1..])
  }

  ghost function StepTasks(s: PlannedStep): nat
    decreases s
  {
    match s
    case TaskStep(_) => 1
    case BranchDispatch(_, routes, default) =>
      Larger(MaxOf(set k | k in routes :: Tasks(routes[k].steps)),
        if default.Some? then Tasks(default.value.steps) else 0)
    case LoopStart(_, body, max, _) => Tasks(body.steps) + Times(Rounds(max, 0), Tasks(body.steps))
    case LoopCheck(_, body, max, _, i) => Times(Rounds(max, i), Tasks(body.steps))
    case _ => 0
  }

  lemma {:induction false} TasksAppend(a: seq<PlannedStep>, b: seq<PlannedStep>)
    ensures Tasks(a + b) == Tasks(a) + Tasks(b)
    decreases |a|
  {
    if a == [] {
      assert a + b == b;
    } else {
      assert (a + b)[1..] == a[1..] + b;
      TasksAppend(a[1..], b);
    }
  }

  lemma OneStep(s: PlannedStep)
    ensures Tasks([s]) == StepTasks(s)
  {
    assert [s][1..] == [];
  }

  /** Steps other than tasks never add submissions, splices included. */
  lemma AdvanceTasks(env: Env, m: Machine)
    requires m.plan != [] && !m.plan[0].TaskStep?
    ensures Advance(env, m).Ok? ==> Tasks(Advance(env, m).value.plan) <= Tasks(m.plan)
  {
    match m.plan[0]
    case BranchDispatch(_, _, _) => DispatchTasks(env, m);
    case LoopStart(id, body, max, onMax) => LoopTasks(env, m);
    case LoopCheck(_, _, _, _, _) => LoopTasks(env, m);
    case _ =>
  }

  lemma DispatchTasks(env: Env, m: Machine)
    requires m.plan != [] && m.plan[0].BranchDispatch?
    ensures Advance(env, m).Ok? ==> Tasks(Advance(env, m).value.plan) <= Tasks(m.plan)
  {
    hide StepTasks, MaxOf;
    if Advance(env, m).Ok? {
      var s, rest := m.plan[0], m.plan[1..];
      var key := env.decodeKey(m.current).value;
      var chosen := if key in s.routes then s.routes[key] else s.default.value;
      RouteTasks(s, key);
      SpliceTasks(chosen, WrapBranchEnvelope(key), rest);
      WrapTasks(key);
    }
  }

  lemma WrapTasks(key: string)
    ensures StepTasks(WrapBranchEnvelope(key)) == 0
  {
  }

  lemma LoopTasks(env: Env, m: Machine)
    requires m.plan != [] && (m.plan[0].LoopStart? || m.plan[0].LoopCheck?)
    ensures Advance(env, m).Ok? ==> Tasks(Advance(env, m).value.plan) <= Tasks(m.plan)
  {
    var s, rest := m.plan[0], m.plan[1..];
    if s.LoopStart? {
      SpliceTasks(s.body, LoopCheck(s.loopId, s.body, s.maxIterations, s.onMax, 0), rest);
    } else if s.iteration + 1 < s.maxIterations {
      SpliceTasks(s.body, LoopCheck(s.loopId, s.body, s.maxIterations, s.onMax, s.iteration + 1), rest);
      assert Rounds(s.maxIterations, s.iteration) == Rounds(s.maxIterations, s.iteration + 1) + 1;
    }
  }

  lemma RouteTasks(s: PlannedStep, key: string)
    requires s.BranchDispatch? && (key in s.routes || s.default.Some?)
    ensures Tasks((if key in s.routes then s.routes[key] else s.default.value).steps) <= StepTasks(s)
  {
    var counts := set k | k in s.routes :: Tasks(s.routes[k].steps);
    assert StepTasks(s) == Larger(MaxOf(counts), if s.default.Some? then Tasks(s.default.value.steps) else 0);
    assert key in s.routes ==> Tasks(s.routes[key].steps) in counts;
  }

  lemma SpliceTasks(body: StepList, check: PlannedStep, rest: seq<PlannedStep>)
    ensures Tasks(body.steps + [check] + rest) == Tasks(body.steps) + StepTasks(check) + Tasks(rest)
  {
    TasksAppend(body.steps + [check], rest);
    TasksAppend(body.steps, [check]);
    OneStep(check);
  }

  lemma {:induction false} RunTasks(env: Env, m: Machine)
    ensures |RunPlan(env, m).calls| <= Tasks(m.plan)
    decreases Weight(m.plan)
  {
    if m.plan != [] {
      if m.plan[0].TaskStep? {
        var v := env.task(m.plan[0].id, m.current);
        if v.Ok? {
          RunTasks(env, Submit(m, v.value));
        }
      } else {
        AdvanceTasks(env, m);
        var next := Advance(env, m);
        if next.Ok? {
          RunTasks(env, next.value);
        }
      }
    }
  }

  // ----- compilation keeps the count -----

  lemma {:induction false} FlattenTasks(c: Cont)
    requires Flatten(c).Some?
    ensures Tasks(Flatten(c).value) == Submissions(c)
    decreases c, 2
  {
    hide FlattenNode, NodeSubmissions;
    FlattenNodeTasks(c);
    if Next(c).Some? {
      FlattenTasks(Next(c).value);
      TasksAppend(FlattenNode(c).value, Flatten(Next(c).value).value);
    }
  }

  lemma {:induction false} FlattenNodeTasks(c: Cont)
    requires FlattenNode(c).Some?
    ensures Tasks(FlattenNode(c).value) == NodeSubmissions(c)
    decreases c, 1
  {
    match c
    case Task(id, _, _, _) => OneStep(TaskStep(id));
    case Fork(_, branches, _) =>
      FlattenBranchesTasks(branches);
      TasksAppend(FlattenBranches(branches).value, [CollectBranches]);
      OneStep(CollectBranches);
    case Branch(_, _, _, _, _) => FlattenBranchTasks(c);
    case Loop(id, body, max, onMax, _) =>
      FlattenTasks(body);
      OneStep(LoopStart(id, StepList(Flatten(body).value), max, onMax));
    case ChildWorkflow(_, child, _) => FlattenTasks(child);
    case Delay(_, _, _) =>
  }

  lemma {:induction false} FlattenBranchesTasks(branches: seq<Cont>)
    requires FlattenBranches(branches).Some?
    ensures Tasks(FlattenBranches(branches).value) == BranchSubmissions(branches)
    decreases branches, 3
  {
    if branches != [] {
      var p := Flatten(branches[0]).value;
      FlattenTasks(branches[0]);
      FlattenBranchesTasks(branches[1..]);
      TasksAppend(BranchSteps(branches[0], p), FlattenBranches(branches[1..]).value);
      BranchStepsTasks(branches[0], p);
    }
  }

  lemma BranchStepsTasks(b: Cont, p: seq<PlannedStep>)
    ensures Tasks(BranchSteps(b, p)) == Tasks(p)
  {
    var last := SaveBranchResult(FirstTaskId(b));
    TasksAppend([RestoreForkInput] + p, [last]);
    TasksAppend([RestoreForkInput], p);
    OneStep(RestoreForkInput);
    OneStep(last);
  }

  lemma {:induction false} FlattenBranchTasks(c: Cont)
    requires c.Branch? && FlattenNode(c).Some?
    ensures Tasks(FlattenNode(c).value) == NodeSubmissions(c)
    decreases c, 0
  {
    var plan := FlattenNode(c).value;
    var dispatch := plan[2];
    assert plan == [SaveBranchInput] + ([TaskStep(KeyFnId(c.id))] + [dispatch]);
    TasksAppend([SaveBranchInput], [TaskStep(KeyFnId(c.id))] + [dispatch]);
    TasksAppend([TaskStep(KeyFnId(c.id))], [dispatch]);
    OneStep(SaveBranchInput);
    OneStep(TaskStep(KeyFnId(c.id)));
    OneStep(dispatch);
    forall k | k in c.routes ensures Tasks(dispatch.routes[k].steps) == Submissions(c.routes[k]) {
      FlattenTasks(c.routes[k]);
    }
    assert (set k | k in dispatch.routes :: Tasks(dispatch.routes[k].steps)) ==
      (set k | k in c.routes :: Submissions(c.routes[k]));
    if c.default.Some? {
      FlattenTasks(c.default.value);
    }
  }

  /**
   Every stepper run ends, in a result or an error, after at most this many task submissions, whatever
   the tasks return.
   */
  lemma SubmissionBound(env: Env, c: Cont, x: Bytes)
    requires Flatten(c).Some?
    ensures |RunPlan(env, Start(Flatten(c).value, x)).calls| <= Submissions(c)
  {
    RunTasks(env, Start(Flatten(c).value, x));
    FlattenTasks(c);
  }
}
