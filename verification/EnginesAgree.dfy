/** On trees from the flow builder, the stepper and the durable executor return the same results. */
module EnginesAgree {
  import opened Prelude
  import opened Continuation
  import opened Semantics
  import opened Plan
  import opened PlanCorrectness
  import opened Durable
  import opened DurableFresh
  import opened Lifecycle
  import opened CrashResume
  import opened Refinement
  import opened FlowBuilders
  import opened Construction

  /** A branch that starts with a task has the same label under both conventions. */
  lemma {:induction false} LabelsAgree(env: Env, signals: map<string, Bytes>, c: Cont, x: Bytes)
    requires BuiltShape(c, false)
    ensures Eval(env, ByNodeId, signals, c, x) == Eval(env, ByFirstTask, signals, c, x)
    decreases c, 2
  {
    NodeLabelsAgree(env, signals, c, x);
    var out := EvalNode(env, ByNodeId, signals, c, x).out;
    if Next(c).Some? && out.Done? {
      LabelsAgree(env, signals, Next(c).value, out.value);
    }
  }

  lemma {:induction false} NodeLabelsAgree(env: Env, signals: map<string, Bytes>, c: Cont, x: Bytes)
    requires BuiltNode(c, false)
    ensures EvalNode(env, ByNodeId, signals, c, x) == EvalNode(env, ByFirstTask, signals, c, x)
    decreases c, 1
  {
    match c
    case Fork(_, branches, _) => BranchLabelsAgree(env, signals, branches, x);
    case Branch(id, _, routes, _, _) =>
      var k := env.task(KeyFnId(id), x);
      if k.Ok? && Choose(env, c, k.value).Ok? {
        TaskLabelsAgree(env, signals, Choose(env, c, k.value).value.1, x);
      }
    case Loop(_, _, _, _, _) => LoopLabelsAgree(env, signals, c, 0, x);
    case ChildWorkflow(_, child, _) => LabelsAgree(env, signals, child, x);
    case _ =>
  }

  lemma {:induction false} TaskLabelsAgree(env: Env, signals: map<string, Bytes>, c: Cont, x: Bytes)
    requires OnlyTasks(c)
    ensures Eval(env, ByNodeId, signals, c, x) == Eval(env, ByFirstTask, signals, c, x)
    decreases c
  {
    var out := Invoke(env, c.id, x).out;
    if c.next.Some? && out.Done? {
      TaskLabelsAgree(env, signals, c.next.value, out.value);
    }
  }

  lemma {:induction false} BranchLabelsAgree(env: Env, signals: map<string, Bytes>, branches: seq<Cont>, x: Bytes)
    requires forall b :: b in branches ==> OnlyTasks(b)
    ensures EvalBranches(env, ByNodeId, signals, branches, x) == EvalBranches(env, ByFirstTask, signals, branches, x)
    decreases branches
  {
    if branches != [] {
      TaskLabelsAgree(env, signals, branches[0], x);
      BranchLabelsAgree(env, signals, branches[1..], x);
    }
  }

  lemma {:induction false} LoopLabelsAgree(env: Env, signals: map<string, Bytes>, c: Cont, i: nat, x: Bytes)
    requires c.Loop? && OnlyTasks(c.body)
    ensures EvalLoop(env, ByNodeId, signals, c, i, x) == EvalLoop(env, ByFirstTask, signals, c, i, x)
    decreases c.maxIterations - i
  {
    if i < c.maxIterations {
      TaskLabelsAgree(env, signals, c.body, x);
      var out := Eval(env, ByNodeId, signals, c.body, x).out;
      if out.Done? && env.decodeLoop(out.value).Ok? {
        LoopLabelsAgree(env, signals, c, i + 1, env.decodeLoop(out.value).value.1);
      }
    }
  }

  /** A tree that compiles waits for no signal, so payloads do not matter to it. */
  lemma {:induction false} SignalsIrrelevant(env: Env, a: map<string, Bytes>, b: map<string, Bytes>, c: Cont, x: Bytes)
    requires Flatten(c).Some?
    ensures Eval(env, ByNodeId, a, c, x) == Eval(env, ByNodeId, b, c, x)
    decreases c, 2
  {
    NodeSignalsIrrelevant(env, a, b, c, x);
    var out := EvalNode(env, ByNodeId, a, c, x).out;
    if Next(c).Some? && out.Done? {
      SignalsIrrelevant(env, a, b, Next(c).value, out.value);
    }
  }

  lemma {:induction false} NodeSignalsIrrelevant(
      env: Env, a: map<string, Bytes>, b: map<string, Bytes>, c: Cont, x: Bytes)
    requires FlattenNode(c).Some?
    ensures EvalNode(env, ByNodeId, a, c, x) == EvalNode(env, ByNodeId, b, c, x)
    decreases c, 1
  {
    match c
    case Fork(_, branches, _) => BranchSignalsIrrelevant(env, a, b, branches, x);
    case Branch(id, _, _, _, _) =>
      var k := env.task(KeyFnId(id), x);
      if k.Ok? && Choose(env, c, k.value).Ok? {
        SignalsIrrelevant(env, a, b, Choose(env, c, k.value).value.1, x);
      }
    case Loop(_, _, _, _, _) => LoopSignalsIrrelevant(env, a, b, c, 0, x);
    case ChildWorkflow(_, child, _) => SignalsIrrelevant(env, a, b, child, x);
    case _ =>
  }

  lemma {:induction false} BranchSignalsIrrelevant(
      env: Env, a: map<string, Bytes>, b: map<string, Bytes>, branches: seq<Cont>, x: Bytes)
    requires FlattenBranches(branches).Some?
    ensures EvalBranches(env, ByNodeId, a, branches, x) == EvalBranches(env, ByNodeId, b, branches, x)
    decreases branches, 3
  {
    if branches != [] {
      SignalsIrrelevant(env, a, b, branches[0], x);
      BranchSignalsIrrelevant(env, a, b, branches[1..], x);
    }
  }

  lemma {:induction false} LoopSignalsIrrelevant(
      env: Env, a: map<string, Bytes>, b: map<string, Bytes>, c: Cont, i: nat, x: Bytes)
    requires c.Loop? && Flatten(c.body).Some?
    ensures EvalLoop(env, ByNodeId, a, c, i, x) == EvalLoop(env, ByNodeId, b, c, i, x)
    decreases c, 0, c.maxIterations - i
  {
    if i < c.maxIterations {
      SignalsIrrelevant(env, a, b, c.body, x);
      var out := Eval(env, ByNodeId, a, c.body, x).out;
      if out.Done? && env.decodeLoop(out.value).Ok? {
        LoopSignalsIrrelevant(env, a, b, c, i + 1, env.decodeLoop(out.value).value.1);
      }
    }
  }

  /**
   An uninterrupted durable launch of a built tree makes the calls and ends with the result or error
   of a stepper run of the same tree, loops included.
   */
  lemma UninterruptedRunsAgree(env: Env, o: Oracle, tasks: seq<BuilderTask>, x: Bytes)
    requires TreeOf(tasks).Ok? && Flatten(TreeOf(tasks).value).Some?
    requires Calm(o) && Honest(env, o) && Ready(o, map[], TreeOf(tasks).value) && Distinct(TreeOf(tasks).value)
    ensures
      var c := TreeOf(tasks).value;
      var plan := RunPlan(env, Start(Flatten(c).value, x));
      var (r, w) := Exec(env, o, c, x, Created(c, x));
      && CallsOf(w.trace) == plan.calls
      && (plan.out.Ok? ==> r == Ok(plan.out.value.current))
      && (plan.out.Err? ==> r == Err(Raised(plan.out.error)))
  {
    var c := TreeOf(tasks).value;
    BuilderGivesSteppable(tasks);
    CompilerCorrect(env, c, x);
    LabelsAgree(env, map[], c, x);
    FreshRun(env, o, map[], c, x, Created(c, x));
    hide Eval, RunPlan, Exec, Steppable, Flatten;
    assert CallsOf(Created(c, x).trace) == [];
  }

  /**
   However a durable instance of a built tree is crashed, parked, paused and resumed: if it completes then
   a stepper run of the same tree on the same input succeeds with the same output, after the same calls;
   and if it fails, with a backend that does not, then the stepper run fails.
   */
  lemma CompletedInstancesAgree(env: Env, o: Oracle, tasks: seq<BuilderTask>, x: Bytes, actions: seq<Action>)
    requires TreeOf(tasks).Ok? && Flatten(TreeOf(tasks).value).Some?
    requires Honest(env, o) && Supported(TreeOf(tasks).value)
    ensures
      var c := TreeOf(tasks).value;
      var w := History(env, o, c, x, actions);
      var plan := RunPlan(env, Start(Flatten(c).value, x));
      && (w.saved.state.Completed? ==> plan.out == Ok(Start([], w.saved.state.output)))
      && (w.saved.state.Completed? ==> forall call :: Made(w.trace, call) <==> call in plan.calls)
      && (w.saved.state.Errored? && Reliable(o) ==> plan.out.Err?)
  {
    var c := TreeOf(tasks).value;
    var w := History(env, o, c, x, actions);
    CrashResumeRefinement(env, o, c, x, actions);
    SignalsIrrelevant(env, Answers(w), map[], c, x);
    BuilderGivesSteppable(tasks);
    LabelsAgree(env, map[], c, x);
    CompilerCorrect(env, c, x);
    hide Eval, RunPlan, Flatten, History, Supported, Answers;
  }
}
