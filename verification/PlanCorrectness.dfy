/** The plan machine computes what the reference semantics says, on every tree the stepper supports. */
module PlanCorrectness {
  import opened Prelude
  import opened Continuation
  import opened Semantics
  import opened Plan

  /**
   What the compiled form relies on: no fork is reached from inside a fork branch (the machine takes
   an empty fork stack to mean "first branch"), and every loop may run at least once.
   */
  predicate Steppable(c: Cont, inFork: bool)
    decreases c, 1
  {
    SteppableNode(c, inFork) && (Next(c).Some? ==> Steppable(Next(c).value, inFork))
  }

  predicate SteppableNode(c: Cont, inFork: bool)
    decreases c, 0
  {
    match c
    case Fork(_, branches, _) => !inFork && forall b :: b in branches ==> Steppable(b, true)
    case Branch(_, _, routes, default, _) =>
      && (forall k :: k in routes ==> Steppable(routes[k], inFork))
      && (default.Some? ==> Steppable(default.value, inFork))
    case Loop(_, body, max, _, _) => max >= 1 && Steppable(body, inFork)
    case ChildWorkflow(_, child, _) => Steppable(child, inFork)
    case _ => true
  }

  /** No fork is in progress. */
  predicate Idle(m: Machine) {
    m.forkInputs == [] && m.branchResults == []
  }

  /** The machine goes on from `m` once the part described by `r` has been run. */
  ghost function Continue(env: Env, r: Run, m: Machine): PlanRun {
    match r.out
    case Done(v) => PlanAfter(r.calls, RunPlan(env, m.(current := v)))
    case Failed(e) => PlanRun(Err(e), r.calls)
    case Blocked(s) => PlanRun(Err(UnsupportedSignal(s)), r.calls)
  }

  lemma PlanAfterAfter(a: seq<Call>, b: seq<Call>, r: PlanRun)
    ensures PlanAfter(a, PlanAfter(b, r)) == PlanAfter(a + b, r)
  {
    assert a + (b + r.calls) == (a + b) + r.calls;
  }

  lemma ContinueAfter(env: Env, calls: seq<Call>, r: Run, m: Machine)
    ensures Continue(env, After(calls, r), m) == PlanAfter(calls, Continue(env, r, m))
  {
    if r.out.Done? {
      var tail := RunPlan(env, m.(current := r.out.value)).calls;
      assert (calls + r.calls) + tail == calls + (r.calls + tail);
    }
  }

  /** The steps compiled from a chain take the machine from the chain's input to its result. */
  lemma {:induction false} Simulate(
      env: Env, signals: map<string, Bytes>, c: Cont, inFork: bool, m: Machine, rest: seq<PlannedStep>)
    requires Steppable(c, inFork) && (inFork || Idle(m))
    requires Flatten(c).Some? && m.plan == Flatten(c).value + rest
    ensures RunPlan(env, m) == Continue(env, Eval(env, ByFirstTask, signals, c, m.current), m.(plan := rest))
    decreases c, 2
  {
    if Next(c).None? {
      SimulateNode(env, signals, c, inFork, m, rest);
    } else {
      var n := Next(c).value;
      var rest' := Flatten(n).value + rest;
      assert m.plan == FlattenNode(c).value + rest';
      SimulateNode(env, signals, c, inFork, m, rest');
      var r := EvalNode(env, ByFirstTask, signals, c, m.current);
      if r.out.Done? {
        var m' := m.(plan := rest', current := r.out.value);
        Simulate(env, signals, n, inFork, m', rest);
        var r' := Eval(env, ByFirstTask, signals, n, m'.current);
        assert m'.(plan := rest).(current := m.current) == m.(plan := rest);
        ContinueCurrent(env, r', m'.(plan := rest), m.(plan := rest));
        ContinueAfter(env, r.calls, r', m.(plan := rest));
      }
    }
  }

  /** `Continue` overwrites the current value. */
  lemma ContinueCurrent(env: Env, r: Run, m: Machine, m': Machine)
    requires m.(current := m'.current) == m'
    ensures Continue(env, r, m) == Continue(env, r, m')
  {
    if r.out.Done? {
      assert m.(current := r.out.value) == m'.(current := r.out.value);
    }
  }

  lemma {:induction false} SimulateNode(
      env: Env, signals: map<string, Bytes>, c: Cont, inFork: bool, m: Machine, rest: seq<PlannedStep>)
    requires SteppableNode(c, inFork) && (inFork || Idle(m))
    requires FlattenNode(c).Some? && m.plan == FlattenNode(c).value + rest
    ensures RunPlan(env, m) == Continue(env, EvalNode(env, ByFirstTask, signals, c, m.current), m.(plan := rest))
    decreases c, 1
  {
    match c
    case Task(id, _, _, _) =>
      assert m.plan[1..] == rest;
    case Delay(_, _, _) =>
      assert m.plan == rest;
      assert m.(plan := rest, current := m.current) == m;
    case Fork(_, branches, _) =>
      SimulateFork(env, signals, c, m, rest);
    case Branch(_, _, _, _, _) =>
      SimulateBranch(env, signals, c, inFork, m, rest);
    case Loop(_, body, max, _, _) =>
      var start := FlattenNode(c).value[0];
      var check := LoopCheck(c.id, start.body, max, c.onMax, 0);
      var m' := m.(plan := start.body.steps + [check] + rest);
      assert m.plan[0] == start && m.plan[1..] == rest;
      assert RunPlan(env, m) == RunPlan(env, m');
      SimulateLoop(env, signals, c, inFork, 0, m', rest);
    case ChildWorkflow(_, child, _) =>
      Simulate(env, signals, child, inFork, m, rest);
    case AwaitSignal(_, _, _, _) =>
      assert false;
  }

  /** Iteration `i` has just been spliced into the plan. */
  lemma {:induction false} SimulateLoop(
      env: Env, signals: map<string, Bytes>, c: Cont, inFork: bool, i: nat, m: Machine, rest: seq<PlannedStep>)
    requires c.Loop? && i < c.maxIterations && Steppable(c.body, inFork) && (inFork || Idle(m))
    requires Flatten(c.body).Some?
    requires var body := Flatten(c.body).value;
      m.plan == body + [LoopCheck(c.id, StepList(body), c.maxIterations, c.onMax, i)] + rest
    ensures RunPlan(env, m) == Continue(env, EvalLoop(env, ByFirstTask, signals, c, i, m.current), m.(plan := rest))
    decreases c, 0, c.maxIterations - i
  {
    var body := Flatten(c.body).value;
    var check := LoopCheck(c.id, StepList(body), c.maxIterations, c.onMax, i);
    var rest' := [check] + rest;
    assert m.plan == body + rest';
    Simulate(env, signals, c.body, inFork, m, rest');
    var r := Eval(env, ByFirstTask, signals, c.body, m.current);
    if r.out.Done? {
      var atCheck := m.(plan := rest', current := r.out.value);
      assert rest'[0] == check && rest'[1..] == rest;
      var d := env.decodeLoop(r.out.value);
      if d.Ok? && d.value.0 == "again" && i + 1 < c.maxIterations {
        var next := LoopCheck(c.id, StepList(body), c.maxIterations, c.onMax, i + 1);
        var m' := m.(plan := body + [next] + rest, current := d.value.1);
        assert Advance(env, atCheck) == Ok(m');
        SimulateLoop(env, signals, c, inFork, i + 1, m', rest);
        var r' := EvalLoop(env, ByFirstTask, signals, c, i + 1, d.value.1);
        ContinueCurrent(env, r', m'.(plan := rest), m.(plan := rest));
        ContinueAfter(env, r.calls, r', m.(plan := rest));
      } else {
        LastCheck(env, atCheck, c, i, rest);
        var e := LoopExit(env, c, i, r.out.value);
        ContinueCurrent(env, e, atCheck.(plan := rest), m.(plan := rest));
        ContinueAfter(env, r.calls, e, m.(plan := rest));
        assert r.calls + [] == r.calls;
      }
    }
  }

  /** How a loop ends when iteration `i` produced `v` and no further iteration follows. */
  function LoopExit(env: Env, c: Cont, i: nat, v: Bytes): Run
    requires c.Loop?
  {
    var d := env.decodeLoop(v);
    Run(if d.Err? then Failed(d.error)
        else if d.value.0 == "done" then Done(d.value.1)
        else if d.value.0 != "again" then Failed(UnknownLoopTag(d.value.0))
        else if c.onMax.Fail? then Failed(MaxIterationsExceeded(c.id, c.maxIterations))
        else Done(d.value.1), [])
  }

  lemma LastCheck(env: Env, m: Machine, c: Cont, i: nat, rest: seq<PlannedStep>)
    requires c.Loop? && m.plan != [] && m.plan[1..] == rest
    requires m.plan[0].LoopCheck? && m.plan[0].loopId == c.id && m.plan[0].maxIterations == c.maxIterations
    requires m.plan[0].onMax == c.onMax && m.plan[0].iteration == i
    requires var d := env.decodeLoop(m.current); d.Ok? && d.value.0 == "again" ==> i + 1 >= c.maxIterations
    ensures RunPlan(env, m) == Continue(env, LoopExit(env, c, i, m.current), m.(plan := rest))
  {
    var e := LoopExit(env, c, i, m.current);
    if e.out.Done? {
      var tail := RunPlan(env, m.(plan := rest, current := e.out.value));
      assert [] + tail.calls == tail.calls;
    }
  }

  lemma {:induction false} SimulateBranch(
      env: Env, signals: map<string, Bytes>, c: Cont, inFork: bool, m: Machine, rest: seq<PlannedStep>)
    requires c.Branch? && SteppableNode(c, inFork) && (inFork || Idle(m))
    requires FlattenNode(c).Some? && m.plan == FlattenNode(c).value + rest
    ensures RunPlan(env, m) == Continue(env, EvalNode(env, ByFirstTask, signals, c, m.current), m.(plan := rest))
    decreases c, 0
  {
    hide Eval, Flatten, Steppable, RunPlan;
    var x := m.current;
    BranchStarts(env, c, m, rest);
    var k := Invoke(env, KeyFnId(c.id), x);
    if k.out.Done? {
      BranchDispatches(env, c, m, rest, x, k.out.value);
      var chosen := Choose(env, c, k.out.value);
      if chosen.Ok? {
        var (key, route) := chosen.value;
        SimulateRoute(env, signals, route, key, inFork, Spliced(m, rest, key, route, x), rest);
        ContinueAfter(env, k.calls, Wrapped(env, key, Eval(env, ByFirstTask, signals, route, x)), m.(plan := rest));
      }
    }
  }

  /** The machine at the dispatch step, with the branch's input on its stack and the key on hand. */
  function AtDispatch(m: Machine, dispatch: PlannedStep, rest: seq<PlannedStep>, x: Bytes, v: Bytes): Machine {
    m.(plan := [dispatch] + rest, branchInputs := m.branchInputs + [x], current := v)
  }

  /** The machine in front of the chosen route. */
  function Spliced(m: Machine, rest: seq<PlannedStep>, key: string, route: Cont, x: Bytes): Machine
    requires Flatten(route).Some?
  {
    m.(plan := Flatten(route).value + [WrapBranchEnvelope(key)] + rest, current := x)
  }

  /** A branch node's plan saves its input and calls the key function. */
  lemma BranchStarts(env: Env, c: Cont, m: Machine, rest: seq<PlannedStep>)
    requires c.Branch? && FlattenNode(c).Some? && m.plan == FlattenNode(c).value + rest
    ensures
      var k := Invoke(env, KeyFnId(c.id), m.current);
      RunPlan(env, m) ==
        if k.out.Done? then
          PlanAfter(k.calls, RunPlan(env, AtDispatch(m, FlattenNode(c).value[2], rest, m.current, k.out.value)))
        else Continue(env, k, m)
  {
    hide Flatten;
    var x, steps := m.current, FlattenNode(c).value;
    var m1 := m.(plan := steps[1..] + rest, branchInputs := m.branchInputs + [x]);
    assert m.plan[0] == SaveBranchInput && m.plan[1..] == m1.plan;
    assert RunPlan(env, m) == RunPlan(env, m1);
    assert m1.plan[0] == TaskStep(KeyFnId(c.id)) && m1.plan[1..] == [steps[2]] + rest;
    var k := Invoke(env, KeyFnId(c.id), x);
    if k.out.Done? {
      assert AtDispatch(m, steps[2], rest, x, k.out.value) == Submit(m1, k.out.value);
    }
  }

  /** The key decides which route is spliced into the plan. */
  lemma BranchDispatches(env: Env, c: Cont, m: Machine, rest: seq<PlannedStep>, x: Bytes, v: Bytes)
    requires c.Branch? && FlattenNode(c).Some?
    ensures
      var chosen := Choose(env, c, v);
      && (chosen.Ok? ==> Flatten(chosen.value.1).Some?)
      && RunPlan(env, AtDispatch(m, FlattenNode(c).value[2], rest, x, v)) ==
           if chosen.Ok? then RunPlan(env, Spliced(m, rest, chosen.value.0, chosen.value.1, x))
           else PlanRun(Err(chosen.error), [])
  {
    var dispatch := FlattenNode(c).value[2];
    var m2 := AtDispatch(m, dispatch, rest, x, v);
    assert m2.plan[0] == dispatch && m2.plan[1..] == rest && Pop(m2.branchInputs) == m.branchInputs;
    var chosen := Choose(env, c, v);
    if chosen.Ok? {
      assert Advance(env, m2) == Ok(Spliced(m, rest, chosen.value.0, chosen.value.1, x));
    } else {
      assert Advance(env, m2) == Err(chosen.error);
    }
  }

  /** A route has been spliced in front of the step that wraps its result. */
  lemma {:induction false} SimulateRoute(
      env: Env, signals: map<string, Bytes>, route: Cont, key: string, inFork: bool, m: Machine,
      rest: seq<PlannedStep>)
    requires Steppable(route, inFork) && (inFork || Idle(m))
    requires Flatten(route).Some? && m.plan == Flatten(route).value + [WrapBranchEnvelope(key)] + rest
    ensures RunPlan(env, m) ==
      Continue(env, Wrapped(env, key, Eval(env, ByFirstTask, signals, route, m.current)), m.(plan := rest))
    decreases route, 3
  {
    hide Eval, Flatten, Steppable, RunPlan;
    var rest' := [WrapBranchEnvelope(key)] + rest;
    assert m.plan == Flatten(route).value + rest';
    Simulate(env, signals, route, inFork, m, rest');
    var r := Eval(env, ByFirstTask, signals, route, m.current);
    if r.out.Done? {
      WrapsResult(env, key, m, rest, r.out.value);
      assert r.calls + [] == r.calls;
    }
  }

  /** The step behind a route wraps its result. */
  lemma WrapsResult(env: Env, key: string, m: Machine, rest: seq<PlannedStep>, v: Bytes)
    ensures
      var wrapped := env.encodeEnvelope(key, v);
      RunPlan(env, m.(plan := [WrapBranchEnvelope(key)] + rest, current := v)) ==
        if wrapped.Ok? then RunPlan(env, m.(plan := rest, current := wrapped.value))
        else PlanRun(Err(wrapped.error), [])
  {
    var m' := m.(plan := [WrapBranchEnvelope(key)] + rest, current := v);
    assert m'.plan[0] == WrapBranchEnvelope(key) && m'.plan[1..] == rest;
  }

  lemma {:induction false} SimulateFork(
      env: Env, signals: map<string, Bytes>, c: Cont, m: Machine, rest: seq<PlannedStep>)
    requires c.Fork? && SteppableNode(c, false) && Idle(m)
    requires FlattenNode(c).Some? && m.plan == FlattenNode(c).value + rest
    ensures RunPlan(env, m) == Continue(env, EvalNode(env, ByFirstTask, signals, c, m.current), m.(plan := rest))
    decreases c, 0
  {
    var rest' := [CollectBranches] + rest;
    assert m.plan == FlattenBranches(c.branches).value + rest';
    SimulateBranches(env, signals, c.branches, m, rest', m.current, []);
    var g := EvalBranches(env, ByFirstTask, signals, c.branches, m.current);
    if g.stop.None? {
      var m' := Collecting(m, rest', m.current, [], g.results);
      assert [] + g.results == g.results;
      assert m'.plan[0] == CollectBranches && m'.plan[1..] == rest;
      var encoded := env.encodeNamed(g.results);
      if encoded.Ok? {
        assert Advance(env, m') == Ok(m.(plan := rest, current := encoded.value));
        assert m.(plan := rest, current := encoded.value) == m.(plan := rest).(current := encoded.value);
      } else {
        assert g.calls + [] == g.calls;
      }
    }
  }

  /** The machine after `results` more branches of a fork on `x`, when `acc` had been saved before. */
  function Collecting(
      m: Machine, plan: seq<PlannedStep>, x: Bytes, acc: seq<(string, Bytes)>,
      results: seq<(string, Bytes)>): Machine {
    if results == [] then m.(plan := plan)
    else m.(plan := plan, current := results[|results| - 1].1, forkInputs := [x], branchResults := [acc + results])
  }

  /** A fork on `x` is in progress (or about to start) and has saved `acc` so far. */
  predicate Forking(m: Machine, x: Bytes, acc: seq<(string, Bytes)>) {
    (Idle(m) && m.current == x && acc == []) || (m.forkInputs == [x] && m.branchResults == [acc])
  }

  /** The step in front of a branch gives it the fork's input. */
  lemma RestoresInput(env: Env, m: Machine, rest: seq<PlannedStep>, x: Bytes, acc: seq<(string, Bytes)>)
    requires Forking(m, x, acc) && m.plan == [RestoreForkInput] + rest
    ensures RunPlan(env, m) ==
      RunPlan(env, m.(plan := rest, current := x, forkInputs := [x], branchResults := [acc]))
  {
    assert m.plan[1..] == rest;
    assert Idle(m) ==> m.forkInputs + [x] == [x] && m.branchResults + [[]] == [acc];
    assert Advance(env, m) == Ok(m.(plan := rest, current := x, forkInputs := [x], branchResults := [acc]));
  }

  /** The step behind a branch collects its result. */
  lemma SavesResult(
      env: Env, m: Machine, id: string, rest: seq<PlannedStep>, x: Bytes, acc: seq<(string, Bytes)>, v: Bytes)
    ensures
      var m' := m.(plan := [SaveBranchResult(id)] + rest, current := v, forkInputs := [x], branchResults := [acc]);
      RunPlan(env, m') == RunPlan(env, Collecting(m, rest, x, acc, [(id, v)]).(current := v))
  {
    var m' := m.(plan := [SaveBranchResult(id)] + rest, current := v, forkInputs := [x], branchResults := [acc]);
    var m3 := Collecting(m, rest, x, acc, [(id, v)]);
    assert m'.plan[0] == SaveBranchResult(id) && m'.plan[1..] == rest;
    assert [acc][0 := m3.branchResults[0]] == m3.branchResults;
    assert Advance(env, m') == Ok(m3.(current := v));
  }

  /** One branch: restore the fork input, run the branch, save its result. */
  lemma {:induction false} SimulateOneBranch(env: Env, signals: map<string, Bytes>, b: Cont, m: Machine,
                                             rest: seq<PlannedStep>, x: Bytes, acc: seq<(string, Bytes)>)
    requires Steppable(b, true) && Flatten(b).Some? && Forking(m, x, acc)
    requires m.plan == BranchSteps(b, Flatten(b).value) + rest
    ensures
      var r := Eval(env, ByFirstTask, signals, b, x);
      RunPlan(env, m) ==
        if r.out.Done? then
          PlanAfter(r.calls, RunPlan(env, Collecting(m, rest, x, acc, [(FirstTaskId(b), r.out.value)])))
        else Continue(env, r, m)
    decreases b, 3
  {
    var save := SaveBranchResult(FirstTaskId(b));
    var m1 := m.(plan := Flatten(b).value + ([save] + rest), current := x, forkInputs := [x], branchResults := [acc]);
    assert m.plan == [RestoreForkInput] + m1.plan;
    RestoresInput(env, m, m1.plan, x, acc);
    Simulate(env, signals, b, true, m1, [save] + rest);
    var r := Eval(env, ByFirstTask, signals, b, x);
    hide Eval, Flatten, Steppable, FirstTaskId, RunPlan, Forking;
    if r.out.Done? {
      SavesResult(env, m, FirstTaskId(b), rest, x, acc, r.out.value);
    }
  }

  /** The remaining branches of a fork on `x`. */
  lemma {:induction false} SimulateBranches(env: Env, signals: map<string, Bytes>, branches: seq<Cont>, m: Machine,
                                            rest: seq<PlannedStep>, x: Bytes, acc: seq<(string, Bytes)>)
    requires forall b :: b in branches ==> Steppable(b, true)
    requires FlattenBranches(branches).Some? && m.plan == FlattenBranches(branches).value + rest
    requires Forking(m, x, acc)
    ensures
      var g := EvalBranches(env, ByFirstTask, signals, branches, x);
      RunPlan(env, m) ==
        if g.stop.Some? then Continue(env, Run(g.stop.value, g.calls), m)
        else PlanAfter(g.calls, RunPlan(env, Collecting(m, rest, x, acc, g.results)))
    ensures var stop := EvalBranches(env, ByFirstTask, signals, branches, x).stop; stop.Some? ==> !stop.value.Done?
    decreases branches, 3
  {
    if branches == [] {
      assert m.plan == rest && m.(plan := rest) == m;
      assert [] + RunPlan(env, m).calls == RunPlan(env, m).calls;
    } else {
      var b := branches[0];
      var rest1 := FlattenBranches(branches[1..]).value + rest;
      assert m.plan == BranchSteps(b, Flatten(b).value) + rest1;
      SimulateOneBranch(env, signals, b, m, rest1, x, acc);
      var r := Eval(env, ByFirstTask, signals, b, x);
      if r.out.Done? {
        var first := [(FirstTaskId(b), r.out.value)];
        var m' := Collecting(m, rest1, x, acc, first);
        SimulateBranches(env, signals, branches[1..], m', rest, x, acc + first);
        var g := EvalBranches(env, ByFirstTask, signals, branches[1..], x);
        JoinBranches(env, r.calls, g, m, m', rest, x, acc, first);
      }
    }
  }

  /** Running one branch and then the others amounts to running them all. */
  lemma JoinBranches(env: Env, calls: seq<Call>, g: Gathered, m: Machine, m': Machine,
                     rest: seq<PlannedStep>, x: Bytes, acc: seq<(string, Bytes)>, first: seq<(string, Bytes)>)
    requires |first| == 1 && m' == Collecting(m, m'.plan, x, acc, first)
    requires g.stop.Some? ==> !g.stop.value.Done?
    ensures
      PlanAfter(calls,
        if g.stop.Some? then Continue(env, Run(g.stop.value, g.calls), m')
        else PlanAfter(g.calls, RunPlan(env, Collecting(m', rest, x, acc + first, g.results))))
      == if g.stop.Some? then Continue(env, Run(g.stop.value, calls + g.calls), m)
        else PlanAfter(calls + g.calls, RunPlan(env, Collecting(m, rest, x, acc, first + g.results)))
  {
    if g.stop.None? {
      var all := first + g.results;
      assert (acc + first) + g.results == acc + all;
      assert g.results == [] ==> all == first;
      assert g.results != [] ==> all[|all| - 1] == g.results[|g.results| - 1];
      assert Collecting(m', rest, x, acc + first, g.results) == Collecting(m, rest, x, acc, first + g.results);
      PlanAfterAfter(calls, g.calls, RunPlan(env, Collecting(m, rest, x, acc, first + g.results)));
    }
  }

  /**
   The plan ends with the value, or the error, of the reference semantics, after the same task calls in
   the same order, and with all three stacks empty.
   */
  ghost predicate PlanAgrees(env: Env, c: Cont, x: Bytes)
    requires Flatten(c).Some?
  {
    var r := Eval(env, ByFirstTask, map[], c, x);
    && RunPlan(env, Start(Flatten(c).value, x)).calls == r.calls
    && match r.out {
      case Done(v) => RunPlan(env, Start(Flatten(c).value, x)).out == Ok(Start([], v))
      case Failed(e) => RunPlan(env, Start(Flatten(c).value, x)).out == Err(e)
      case Blocked(_) => false
    }
  }

  /** Compiler correctness: on every supported tree, for all tasks and inputs, the plan agrees. */
  lemma CompilerCorrect(env: Env, c: Cont, x: Bytes)
    requires Flatten(c).Some? && Steppable(c, false)
    ensures PlanAgrees(env, c, x)
  {
    var m := Start(Flatten(c).value, x);
    assert m.plan + [] == m.plan;
    Simulate(env, map[], c, false, m, []);
    var r := Eval(env, ByFirstTask, map[], c, x);
    assert r.calls + [] == r.calls;
    NeverBlocked(env, map[], c, x);
  }

  /** A tree that compiles contains no signal wait, so its evaluation never blocks. */
  lemma {:induction false} NeverBlocked(env: Env, signals: map<string, Bytes>, c: Cont, x: Bytes)
    requires Flatten(c).Some?
    ensures !Eval(env, ByFirstTask, signals, c, x).out.Blocked?
    decreases c, 2
  {
    NodeNeverBlocked(env, signals, c, x);
    var r := EvalNode(env, ByFirstTask, signals, c, x);
    if r.out.Done? && Next(c).Some? {
      NeverBlocked(env, signals, Next(c).value, r.out.value);
    }
  }

  lemma {:induction false} NodeNeverBlocked(env: Env, signals: map<string, Bytes>, c: Cont, x: Bytes)
    requires FlattenNode(c).Some?
    ensures !EvalNode(env, ByFirstTask, signals, c, x).out.Blocked?
    decreases c, 1
  {
    match c
    case Fork(_, branches, _) => BranchesNeverBlocked(env, signals, branches, x);
    case Branch(_, _, routes, default, _) =>
      var k := env.task(KeyFnId(c.id), x);
      if k.Ok? && Choose(env, c, k.value).Ok? {
        NeverBlocked(env, signals, Choose(env, c, k.value).value.1, x);
      }
    case Loop(_, _, _, _, _) => LoopNeverBlocked(env, signals, c, 0, x);
    case ChildWorkflow(_, child, _) => NeverBlocked(env, signals, child, x);
    case _ =>
  }

  lemma {:induction false} LoopNeverBlocked(env: Env, signals: map<string, Bytes>, c: Cont, i: nat, x: Bytes)
    requires c.Loop? && Flatten(c.body).Some?
    ensures !EvalLoop(env, ByFirstTask, signals, c, i, x).out.Blocked?
    decreases c, 0, c.maxIterations - i
  {
    if i < c.maxIterations {
      NeverBlocked(env, signals, c.body, x);
      var r := Eval(env, ByFirstTask, signals, c.body, x);
      if r.out.Done? && env.decodeLoop(r.out.value).Ok? {
        LoopNeverBlocked(env, signals, c, i + 1, env.decodeLoop(r.out.value).value.1);
      }
    }
  }

  lemma {:induction false} BranchesNeverBlocked(env: Env, signals: map<string, Bytes>, branches: seq<Cont>, x: Bytes)
    requires FlattenBranches(branches).Some?
    ensures var stop := EvalBranches(env, ByFirstTask, signals, branches, x).stop; stop.Some? ==> !stop.value.Blocked?
    decreases branches, 3
  {
    if branches != [] {
      NeverBlocked(env, signals, branches[0], x);
      BranchesNeverBlocked(env, signals, branches[1..], x);
    }
  }
}
