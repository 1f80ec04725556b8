/** Families of trees outside the stepper's conditions, and what its plan does with them. */
module StepperLimits {
  import opened Prelude
  import opened Continuation
  import opened Semantics
  import opened Plan
  import opened PlanCorrectness

  /** A task without a successor. */
  function Leaf(id: string): Cont {
    Task(id, None, TaskMeta(None, None, None, None, []), None)
  }

  lemma FlattenOneBranch(b: Cont, plan: seq<PlannedStep>)
    requires Flatten(b) == Some(plan)
    ensures FlattenBranches([b]) == Some(BranchSteps(b, plan))
  {
    var bs := [b];
    assert bs[1..] == [] && FlattenBranches(bs[1..]) == Some([]);
    assert BranchSteps(b, plan) + [] == BranchSteps(b, plan);
  }

  lemma FlattenLeaf(id: string)
    ensures Flatten(Leaf(id)) == Some([TaskStep(id)])
    ensures FlattenBranches([Leaf(id)]) == Some([RestoreForkInput, TaskStep(id), SaveBranchResult(id)])
  {
    assert Flatten(Leaf(id)) == Some([TaskStep(id)]);
    FlattenOneBranch(Leaf(id), [TaskStep(id)]);
    assert BranchSteps(Leaf(id), [TaskStep(id)]) == [RestoreForkInput, TaskStep(id), SaveBranchResult(id)];
  }

  // ----- single steps of the machine -----

  lemma RunRestoreFirst(env: Env, rest: seq<PlannedStep>, x: Bytes)
    ensures RunPlan(env, Machine([RestoreForkInput] + rest, x, [], [], [])) ==
      RunPlan(env, Machine(rest, x, [x], [[]], []))
  {
    var m := Machine([RestoreForkInput] + rest, x, [], [], []);
    assert m.plan[1..] == rest && m.forkInputs + [m.current] == [x] && m.branchResults + [[]] == [[]];
    assert Advance(env, m) == Ok(Machine(rest, x, [x], [[]], []));
  }

  lemma RunRestoreNext(env: Env, rest: seq<PlannedStep>, x: Bytes, y: Bytes, rs: seq<(string, Bytes)>)
    ensures RunPlan(env, Machine([RestoreForkInput] + rest, x, [y], [rs], [])) ==
      RunPlan(env, Machine(rest, y, [y], [rs], []))
  {
    var m := Machine([RestoreForkInput] + rest, x, [y], [rs], []);
    assert m.plan[1..] == rest;
    assert Advance(env, m) == Ok(Machine(rest, y, [y], [rs], []));
  }

  lemma RunSave(env: Env, rest: seq<PlannedStep>, id: string, x: Bytes, y: Bytes, rs: seq<(string, Bytes)>)
    ensures RunPlan(env, Machine([SaveBranchResult(id)] + rest, x, [y], [rs], [])) ==
      RunPlan(env, Machine(rest, x, [y], [rs + [(id, x)]], []))
  {
    var m := Machine([SaveBranchResult(id)] + rest, x, [y], [rs], []);
    assert m.plan[1..] == rest && [rs][0 := rs + [(id, x)]] == [rs + [(id, x)]];
    assert Advance(env, m) == Ok(Machine(rest, x, [y], [rs + [(id, x)]], []));
  }

  lemma RunSaveIdle(env: Env, rest: seq<PlannedStep>, id: string, x: Bytes)
    ensures RunPlan(env, Machine([SaveBranchResult(id)] + rest, x, [], [], [])) ==
      RunPlan(env, Machine(rest, x, [], [], []))
  {
    var m := Machine([SaveBranchResult(id)] + rest, x, [], [], []);
    assert m.plan[1..] == rest;
    assert Advance(env, m) == Ok(Machine(rest, x, [], [], []));
  }

  lemma RunCollect(env: Env, rest: seq<PlannedStep>, x: Bytes, y: Bytes, rs: seq<(string, Bytes)>, v: Bytes)
    requires env.encodeNamed(rs) == Ok(v)
    ensures RunPlan(env, Machine([CollectBranches] + rest, x, [y], [rs], [])) ==
      RunPlan(env, Machine(rest, v, [], [], []))
  {
    var m := Machine([CollectBranches] + rest, x, [y], [rs], []);
    assert m.plan[1..] == rest && Pop([y]) == [] && Pop([rs]) == [];
    assert Advance(env, m) == Ok(Machine(rest, v, [], [], []));
  }

  lemma RunTask(env: Env, rest: seq<PlannedStep>, id: string, m: Machine, v: Bytes)
    requires m.plan == [TaskStep(id)] + rest && env.task(id, m.current) == Ok(v)
    ensures RunPlan(env, m) == PlanAfter([Call(id, m.current)], RunPlan(env, m.(plan := rest, current := v)))
  {
    assert m.plan[1..] == rest;
  }

  // ----- a fork inside a fork branch -----

  /** A fork whose first branch is itself a fork. */
  function NestedFork(a: string, b: string): Cont {
    Fork("f", [Fork("g", [Leaf(a)], None)] + [Leaf(b)], None)
  }

  /** The plan of the nested fork, from its end. */
  function PlanEnd(b: string): seq<PlannedStep> {
    [SaveBranchResult(b)] + [CollectBranches]
  }

  function PlanMiddle(a: string, b: string): seq<PlannedStep> {
    [SaveBranchResult(a)] +
    ([CollectBranches] + ([SaveBranchResult(a)] + ([RestoreForkInput] + ([TaskStep(b)] + PlanEnd(b)))))
  }

  function NestedPlan(a: string, b: string): seq<PlannedStep> {
    [RestoreForkInput] + ([RestoreForkInput] + ([TaskStep(a)] + PlanMiddle(a, b)))
  }

  lemma FlattenNested(a: string, b: string)
    ensures Flatten(NestedFork(a, b)) == Some(NestedPlan(a, b))
  {
    FlattenLeaf(a);
    FlattenLeaf(b);
    var g := Fork("g", [Leaf(a)], None);
    var inner := [RestoreForkInput, TaskStep(a), SaveBranchResult(a), CollectBranches];
    var last := [RestoreForkInput, TaskStep(b), SaveBranchResult(b)];
    assert FlattenNode(g) == Some(FlattenBranches([Leaf(a)]).value + [CollectBranches]);
    assert FlattenBranches([Leaf(a)]).value + [CollectBranches] == inner;
    assert Flatten(g) == Some(inner);
    assert FirstTaskId(Leaf(a)) == a && FirstTaskId(g) == a;
    var bs := [g] + [Leaf(b)];
    assert bs[0] == g && bs[1..] == [Leaf(b)] && FlattenBranches(bs[1..]) == Some(last);
    assert FlattenBranches(bs) == Some(BranchSteps(g, inner) + last);
    assert FlattenNode(NestedFork(a, b)) == Some(BranchSteps(g, inner) + last + [CollectBranches]);
    assert BranchSteps(g, inner) + last + [CollectBranches] == NestedPlan(a, b);
  }

  lemma EvalLeaf(env: Env, id: string, x: Bytes)
    ensures Eval(env, ByFirstTask, map[], Leaf(id), x) == Invoke(env, id, x) && FirstTaskId(Leaf(id)) == id
  {
  }

  /** The semantics calls both tasks with the fork's input. */
  lemma EvalNested(env: Env, a: string, b: string, x: Bytes, v: Bytes, u: Bytes)
    requires env.task(a, x) == Ok(v) && env.encodeNamed([(a, v)]) == Ok(u)
    ensures Eval(env, ByFirstTask, map[], NestedFork(a, b), x).calls == [Call(a, x), Call(b, x)]
  {
    EvalLeaf(env, a, x);
    EvalLeaf(env, b, x);
    var as1 := [Leaf(a)];
    assert as1[1..] == [];
    assert EvalBranches(env, ByFirstTask, map[], as1, x) == Gathered(None, [(a, v)], [Call(a, x)]);
    var g := Fork("g", as1, None);
    assert EvalNode(env, ByFirstTask, map[], g, x) == Run(Done(u), [Call(a, x)]);
    assert Eval(env, ByFirstTask, map[], g, x) == Run(Done(u), [Call(a, x)]);
    var bs := [g] + [Leaf(b)];
    assert bs[0] == g && bs[1..] == [Leaf(b)] && [Leaf(b)][1..] == [];
    assert EvalBranches(env, ByFirstTask, map[], bs[1..], x).calls == [Call(b, x)];
    assert EvalBranches(env, ByFirstTask, map[], bs, x).calls == [Call(a, x)] + [Call(b, x)];
  }

  /** At its end the plan joins the second branch alone. */
  lemma NestedEnd(env: Env, b: string, y: Bytes, u: Bytes)
    ensures
      var r := RunPlan(env, Machine(PlanEnd(b), y, [u], [[]], []));
      && r.calls == []
      && r.out == match env.encodeNamed([(b, y)]) case Ok(j) => Ok(Start([], j)) case Err(e) => Err(e)
  {
    RunSave(env, [CollectBranches], b, y, u, []);
    assert [] + [(b, y)] == [(b, y)] && [CollectBranches] + [] == [CollectBranches];
    match env.encodeNamed([(b, y)])
    case Ok(j) => RunCollect(env, [], y, u, [(b, y)], j);
    case Err(e) =>
      assert Advance(env, Machine([CollectBranches], y, [u], [[(b, y)]], [])) == Err(e);
  }

  /** After the inner fork the second branch is called with the inner fork's result. */
  lemma NestedMiddle(env: Env, a: string, b: string, x: Bytes, v: Bytes, u: Bytes)
    requires env.encodeNamed([(a, v)]) == Ok(u)
    ensures
      var r := RunPlan(env, Machine(PlanMiddle(a, b), v, [x], [[]], []));
      && r.calls == [Call(b, u)]
      && (env.task(b, u).Ok? ==> r.out == RunPlan(env, Machine(PlanEnd(b), env.task(b, u).value, [u], [[]], [])).out)
  {
    var p1 := [TaskStep(b)] + PlanEnd(b);
    var p2 := [SaveBranchResult(a)] + ([RestoreForkInput] + p1);
    RunSave(env, [CollectBranches] + p2, a, v, x, []);
    assert [] + [(a, v)] == [(a, v)];
    RunCollect(env, p2, v, x, [(a, v)], u);
    RunSaveIdle(env, [RestoreForkInput] + p1, a, u);
    RunRestoreFirst(env, p1, u);
    var m := Machine(p1, u, [u], [[]], []);
    if env.task(b, u).Ok? {
      RunTask(env, PlanEnd(b), b, m, env.task(b, u).value);
      NestedEnd(env, b, env.task(b, u).value, u);
      hide RunPlan;
    } else {
      assert m.plan[0] == TaskStep(b);
    }
  }

  lemma NestedRun(env: Env, a: string, b: string, x: Bytes, v: Bytes, u: Bytes)
    requires env.task(a, x) == Ok(v) && env.encodeNamed([(a, v)]) == Ok(u)
    ensures
      var r := RunPlan(env, Start(NestedPlan(a, b), x));
      && r.calls == [Call(a, x), Call(b, u)]
      && (env.task(b, u).Ok? ==> r.out == RunPlan(env, Machine(PlanEnd(b), env.task(b, u).value, [u], [[]], [])).out)
  {
    var p := [TaskStep(a)] + PlanMiddle(a, b);
    hide RunPlan, PlanMiddle;
    RunRestoreFirst(env, [RestoreForkInput] + p, x);
    RunRestoreNext(env, p, x, x, []);
    RunTask(env, PlanMiddle(a, b), a, Machine(p, x, [x], [[]], []), v);
    NestedMiddle(env, a, b, x, v, u);
  }

  /**
   A fork inside a fork branch, for all tasks, ids and inputs: the stepper hands the inner fork's result
   to the next outer branch instead of the fork's input, so it makes the calls of the semantics exactly if
   the two are equal; and it joins the last branch alone, without the inner fork's result.
   */
  lemma NestedForkBreaksStepper(env: Env, a: string, b: string, x: Bytes, v: Bytes, u: Bytes)
    requires env.task(a, x) == Ok(v) && env.encodeNamed([(a, v)]) == Ok(u)
    ensures
      var c := NestedFork(a, b);
      && !Steppable(c, false) && Flatten(c).Some?
      && var r := RunPlan(env, Start(Flatten(c).value, x));
         && r.calls == [Call(a, x), Call(b, u)]
         && (r.calls == Eval(env, ByFirstTask, map[], c, x).calls <==> u == x)
         && (env.task(b, u).Ok? && env.encodeNamed([(b, env.task(b, u).value)]).Ok? ==>
               r.out == Ok(Start([], env.encodeNamed([(b, env.task(b, u).value)]).value)))
  {
    hide Eval, Flatten, RunPlan, NestedPlan, NestedFork, Steppable;
    FlattenNested(a, b);
    EvalNested(env, a, b, x, v, u);
    NestedRun(env, a, b, x, v, u);
    NestedNotSteppable(a, b);
    if env.task(b, u).Ok? {
      NestedEnd(env, b, env.task(b, u).value, u);
    }
    assert [Call(a, x), Call(b, u)] == [Call(a, x), Call(b, x)] <==> Call(b, u) == Call(b, x);
  }

  lemma NestedNotSteppable(a: string, b: string)
    ensures !Steppable(NestedFork(a, b), false)
  {
    var g := Fork("g", [Leaf(a)], None);
    var branches := [g] + [Leaf(b)];
    assert branches[0] == g;
    ForkInForkNotSteppable("f", branches, None, g);
  }

  /** No fork may be a branch of a fork. */
  lemma ForkInForkNotSteppable(id: string, branches: seq<Cont>, join: Option<Cont>, g: Cont)
    requires g in branches && g.Fork?
    ensures !Steppable(Fork(id, branches, join), false)
  {
    assert !SteppableNode(g, true);
    assert !Steppable(g, true);
    assert !SteppableNode(Fork(id, branches, join), false);
  }

  // ----- a loop limit of zero -----

  /** The stepper runs a loop body before it looks at the limit. */
  lemma LoopBodyRunsFirst(env: Env, loop: PlannedStep, a: string, x: Bytes)
    requires loop.LoopStart? && loop.body == StepList([TaskStep(a)])
    ensures RunPlan(env, Start([loop], x)).calls != [] && RunPlan(env, Start([loop], x)).calls[0] == Call(a, x)
  {
    var check := LoopCheck(loop.loopId, loop.body, loop.maxIterations, loop.onMax, 0);
    var m0, m1 := Start([loop], x), Start([TaskStep(a)] + [check], x);
    assert m0.plan[1..] == [] && loop.body.steps + [check] + [] == m1.plan;
    assert Advance(env, m0) == Ok(m1);
    if env.task(a, x).Ok? {
      RunTask(env, [check], a, m1, env.task(a, x).value);
    }
  }

  /** A loop limit of zero: for all tasks and inputs the stepper calls the body's task, the semantics nothing. */
  lemma ZeroIterationsRunOnce(env: Env, c: Cont, a: string, x: Bytes)
    requires c.Loop? && c.body == Leaf(a) && c.maxIterations == 0 && c.next.None?
    ensures !Steppable(c, false) && Flatten(c).Some?
    ensures Eval(env, ByFirstTask, map[], c, x).calls == []
    ensures RunPlan(env, Start(Flatten(c).value, x)).calls != []
  {
    var loop := LoopStart(c.id, StepList([TaskStep(a)]), 0, c.onMax);
    FlattenLeaf(a);
    hide RunPlan;
    assert EvalLoop(env, ByFirstTask, map[], c, 0, x).calls == [];
    assert EvalNode(env, ByFirstTask, map[], c, x).calls == [];
    assert Flatten(c) == Some([loop]);
    LoopBodyRunsFirst(env, loop, a, x);
  }

  // ----- why the conditions are not necessary -----

  /**
   The conditions of compiler correctness have no converse: behind a branch node without routes nothing is
   ever reached, so whatever follows it may break them.
   */
  lemma UnreachablePartIsHarmless(env: Env, id: string, rest: Cont, x: Bytes)
    requires Flatten(rest).Some?
    ensures
      var c := Branch(id, None, map[], None, Some(rest));
      Flatten(c).Some? && PlanAgrees(env, c, x) && (Steppable(c, false) <==> Steppable(rest, false))
  {
    var c := Branch(id, None, map[], None, Some(rest));
    var routes: map<string, StepList> := map[];
    var p0 := [BranchDispatch(id, routes, None)] + Flatten(rest).value;
    var p1 := [TaskStep(KeyFnId(id))] + p0;
    var head := [SaveBranchInput, TaskStep(KeyFnId(id)), BranchDispatch(id, routes, None)];
    assert FlattenNode(c).Some? && FlattenNode(c).value[2].routes == routes;
    assert FlattenNode(c) == Some(head);
    assert head + Flatten(rest).value == [SaveBranchInput] + p1;
    assert Flatten(c) == Some(head + Flatten(rest).value);
    hide Flatten;
    DeadEnd(env, id, p0, x);
    DeadEval(env, c, x);
  }

  /** The plan of a branch node without routes stops at its dispatch step. */
  lemma DeadEnd(env: Env, id: string, p0: seq<PlannedStep>, x: Bytes)
    requires p0 != [] && p0[0] == BranchDispatch(id, map[], None)
    ensures
      var r := RunPlan(env, Start([SaveBranchInput] + ([TaskStep(KeyFnId(id))] + p0), x));
      r.calls == [Call(KeyFnId(id), x)] && r.out == Err(DeadError(env, id, x))
  {
    var p1 := [TaskStep(KeyFnId(id))] + p0;
    var m := Start([SaveBranchInput] + p1, x);
    assert m.plan[1..] == p1 && m.branchInputs + [x] == [x];
    var m1 := Machine(p1, x, [], [], [x]);
    assert Advance(env, m) == Ok(m1);
    if env.task(KeyFnId(id), x).Ok? {
      RunTask(env, p0, KeyFnId(id), m1, env.task(KeyFnId(id), x).value);
      assert Advance(env, m1.(plan := p0, current := env.task(KeyFnId(id), x).value)) == Err(DeadError(env, id, x));
    } else {
      assert m1.plan[0] == TaskStep(KeyFnId(id));
    }
  }

  /** The error of a branch node without routes. */
  function DeadError(env: Env, id: string, x: Bytes): Error {
    match env.task(KeyFnId(id), x)
    case Err(e) => e
    case Ok(v) =>
      match env.decodeKey(v)
      case Err(e) => e
      case Ok(key) => BranchKeyNotFound(id, key)
  }

  lemma DeadEval(env: Env, c: Cont, x: Bytes)
    requires c.Branch? && c.routes == map[] && c.default.None?
    ensures Eval(env, ByFirstTask, map[], c, x) == Run(Failed(DeadError(env, c.id, x)), [Call(KeyFnId(c.id), x)])
  {
    var k := Invoke(env, KeyFnId(c.id), x);
    assert EvalNode(env, ByFirstTask, map[], c, x) == Run(Failed(DeadError(env, c.id, x)), k.calls);
  }
}
