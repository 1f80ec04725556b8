/**
 The stepper object: it owns the plan as a vector with a program counter, splices steps into it in
 place, and is driven by a caller that runs one task at a time.
 */
module Stepper {
  import opened Prelude
  import opened Continuation
  import opened Semantics
  import opened Plan
  import opened PlanCorrectness

  /** A growing vector of planned steps. */
  class PlanBuffer {
    var steps: seq<PlannedStep>

    constructor ()
      ensures steps == []
    {
      steps := [];
    }

    method Push(s: PlannedStep)
      modifies this
      ensures steps == old(steps) + [s]
    {
      steps := steps + [s];
    }

    /** Appends the plan of `c`; on a signal wait it fails and the buffer holds a partial plan. */
    method Flatten(c: Cont) returns (r: Result<(), Error>)
      modifies this
      ensures r.Ok? <==> Plan.Flatten(c).Some?
      ensures r.Ok? ==> steps == old(steps) + Plan.Flatten(c).value
      ensures r.Err? ==> r.error.UnsupportedSignal?
      decreases c, 1
    {
      match c {
        case Task(id, _, _, _) =>
          Push(TaskStep(id));
        case Fork(_, branches, _) =>
          r := FlattenBranches(c);
          if r.Err? { return; }
          Push(CollectBranches);
          assert steps == old(steps) + (Plan.FlattenBranches(branches).value + [CollectBranches]);
        case Delay(_, _, _) =>
          assert steps == old(steps) + [];
        case AwaitSignal(id, _, _, _) =>
          return Err(UnsupportedSignal(id));
        case Branch(id, _, _, _, _) =>
          Push(SaveBranchInput);
          Push(TaskStep(KeyFnId(id)));
          r := FlattenRoutes(c);
          if r.Err? { return; }
          var planned := FlattenNode(c).value;
          assert planned == [SaveBranchInput, TaskStep(KeyFnId(id)), planned[2]];
          assert steps == old(steps) + planned;
        case Loop(id, body, max, onMax, _) =>
          var b := new PlanBuffer();
          r := b.Flatten(body);
          if r.Err? { return; }
          assert b.steps == Plan.Flatten(body).value;
          Push(LoopStart(id, StepList(b.steps), max, onMax));
        case ChildWorkflow(_, child, _) =>
          r := Flatten(child);
          if r.Err? { return; }
      }
      assert steps == old(steps) + FlattenNode(c).value;
      r := Ok(());
      if Next(c).Some? {
        r := Flatten(Next(c).value);
      }
    }

    method FlattenBranches(c: Cont) returns (r: Result<(), Error>)
      requires c.Fork?
      modifies this
      ensures r.Ok? <==> Plan.FlattenBranches(c.branches).Some?
      ensures r.Ok? ==> steps == old(steps) + Plan.FlattenBranches(c.branches).value
      ensures r.Err? ==> r.error.UnsupportedSignal?
      decreases c, 0
    {
      var i := 0;
      while i < |c.branches|
        invariant i <= |c.branches|
        invariant Plan.FlattenBranches(c.branches[..i]).Some?
        invariant steps == old(steps) + Plan.FlattenBranches(c.branches[..i]).value
      {
        var b := c.branches[i];
        FlattenBranchesSplit(c.branches, i);
        Push(RestoreForkInput);
        r := Flatten(b);
        if r.Err? { return; }
        Push(SaveBranchResult(FirstTaskId(b)));
        FlattenBranchesSnoc(c.branches[..i], b);
        assert c.branches[..i] + [b] == c.branches[..i + 1];
        i := i + 1;
      }
      assert c.branches[..i] == c.branches;
      r := Ok(());
    }

    /** Compiles every route and the default of a branch node and appends the dispatch step. */
    method FlattenRoutes(c: Cont) returns (r: Result<(), Error>)
      requires c.Branch?
      modifies this
      ensures r.Ok? <==> FlattenNode(c).Some?
      ensures r.Ok? ==> steps == old(steps) + [FlattenNode(c).value[2]]
      ensures r.Err? ==> r.error.UnsupportedSignal?
      decreases c, 0
    {
      var todo, plans := c.routes.Keys, map[];
      while todo != {}
        invariant todo <= c.routes.Keys && plans.Keys == c.routes.Keys - todo
        invariant forall k :: k in plans ==>
          Plan.Flatten(c.routes[k]).Some? && plans[k] == StepList(Plan.Flatten(c.routes[k]).value)
        invariant steps == old(steps)
        decreases todo
      {
        var key :| key in todo;
        var b := new PlanBuffer();
        r := b.Flatten(c.routes[key]);
        if r.Err? { return; }
        plans := plans[key := StepList(b.steps)];
        todo := todo - {key};
      }
      var default := None;
      if c.default.Some? {
        var b := new PlanBuffer();
        r := b.Flatten(c.default.value);
        if r.Err? { return; }
        assert b.steps == Plan.Flatten(c.default.value).value;
        default := Some(StepList(b.steps));
      }
      assert plans == map k | k in c.routes :: StepList(Plan.Flatten(c.routes[k]).value);
      ghost var dispatch := FlattenNode(c).value[2];
      assert dispatch.routes == plans && dispatch.default == default;
      Push(BranchDispatch(c.id, plans, default));
      r := Ok(());
    }
  }

  lemma {:induction false} FlattenBranchesSnoc(bs: seq<Cont>, b: Cont)
    requires Plan.FlattenBranches(bs).Some? && Plan.Flatten(b).Some?
    ensures Plan.FlattenBranches(bs + [b]) ==
      Some(Plan.FlattenBranches(bs).value + BranchSteps(b, Plan.Flatten(b).value))
    decreases bs
  {
    var last := BranchSteps(b, Plan.Flatten(b).value);
    if bs == [] {
      assert bs + [b] == [b] && [b][1..] == [];
      assert last + [] == [] + last;
    } else {
      assert (bs + [b])[1..] == bs[1..] + [b];
      FlattenBranchesSnoc(bs[1..], b);
      var first, mid := BranchSteps(bs[0], Plan.Flatten(bs[0]).value), Plan.FlattenBranches(bs[1..]).value;
      assert first + (mid + last) == (first + mid) + last;
    }
  }

  lemma {:induction false} FlattenBranchesSplit(bs: seq<Cont>, i: nat)
    requires i < |bs|
    ensures Plan.Flatten(bs[i]).None? ==> Plan.FlattenBranches(bs).None?
    decreases bs
  {
    if i > 0 {
      FlattenBranchesSplit(bs[1..], i - 1);
    }
  }

  /** What the caller is asked to do next. */
  datatype StepResult = RunTask(id: string, input: Bytes) | Finished(output: Bytes)

  class ContinuationStepper {
    var steps: seq<PlannedStep>
    var pos: nat
    var currentInput: Bytes
    var forkInputStack: seq<Bytes>
    var branchResultsStack: seq<seq<(string, Bytes)>>
    var branchInputStack: seq<Bytes>

    ghost predicate Valid()
      reads this
    {
      pos <= |steps|
    }

    /** The abstract machine: executed steps no longer matter. */
    ghost function State(): Machine
      requires Valid()
      reads this
    {
      Machine(steps[pos..], currentInput, forkInputStack, branchResultsStack, branchInputStack)
    }

    constructor (plan: seq<PlannedStep>, input: Bytes)
      ensures Valid() && State() == Start(plan, input)
    {
      steps, pos, currentInput := plan, 0, input;
      forkInputStack, branchResultsStack, branchInputStack := [], [], [];
    }

    method Current() returns (s: StepResult)
      requires Valid()
      ensures s == if State().plan != [] && State().plan[0].TaskStep?
                   then RunTask(State().plan[0].id, currentInput) else Finished(currentInput)
    {
      if pos >= |steps| || !steps[pos].TaskStep? {
        return Finished(currentInput);
      }
      return RunTask(steps[pos].id, currentInput);
    }

    /** Inserts steps right after the current one. */
    method Splice(inserted: seq<PlannedStep>)
      requires Valid() && pos < |steps|
      modifies this`steps, this`pos
      ensures Valid() && steps[pos..] == inserted + old(steps[pos + 1..])
    {
      steps := steps[..pos + 1] + inserted + steps[pos + 1..];
      pos := pos + 1;
    }

    method SkipNonTasks(env: Env) returns (r: Result<(), Error>)
      requires Valid()
      modifies this
      ensures Valid()
      ensures match Skip(env, old(State()))
        case Ok(m) => r.Ok? && State() == m
        case Err(e) => r == Err(e)
    {
      while pos < |steps|
        invariant Valid()
        invariant Skip(env, State()) == Skip(env, old(State()))
        decreases Weight(State().plan)
      {
        if steps[pos].TaskStep? {
          return Ok(());
        }
        r := Step(env);
        if r.Err? {
          return;
        }
      }
      return Ok(());
    }

    method Step(env: Env) returns (r: Result<(), Error>)
      requires Valid() && pos < |steps| && !steps[pos].TaskStep?
      modifies this
      ensures Valid()
      ensures match Advance(env, old(State()))
        case Ok(m) => r.Ok? && State() == m
        case Err(e) => r == Err(e)
    {
      assert State().plan[0] == steps[pos] && State().plan[1..] == steps[pos + 1..];
      match steps[pos] {
        case RestoreForkInput =>
          if forkInputStack != [] {
            currentInput := forkInputStack[|forkInputStack| - 1];
          } else {
            forkInputStack := forkInputStack + [currentInput];
            branchResultsStack := branchResultsStack + [[]];
          }
          pos := pos + 1;
        case SaveBranchResult(branchId) =>
          if branchResultsStack != [] {
            var top := |branchResultsStack| - 1;
            branchResultsStack := branchResultsStack[top := branchResultsStack[top] + [(branchId, currentInput)]];
          }
          pos := pos + 1;
        case CollectBranches =>
          var results := if branchResultsStack != [] then branchResultsStack[|branchResultsStack| - 1] else [];
          forkInputStack, branchResultsStack := Pop(forkInputStack), Pop(branchResultsStack);
          var encoded := env.encodeNamed(results);
          if encoded.Err? {
            return Err(encoded.error);
          }
          currentInput := encoded.value;
          pos := pos + 1;
        case SaveBranchInput =>
          branchInputStack := branchInputStack + [currentInput];
          pos := pos + 1;
        case BranchDispatch(_, _, _) =>
          r := HandleBranchStep(env);
          return;
        case WrapBranchEnvelope(_) =>
          r := HandleBranchStep(env);
          return;
        case LoopStart(_, _, _, _) =>
          r := HandleLoopStep(env);
          return;
        case LoopCheck(_, _, _, _, _) =>
          r := HandleLoopStep(env);
          return;
      }
      r := Ok(());
    }

    method HandleBranchStep(env: Env) returns (r: Result<(), Error>)
      requires Valid() && pos < |steps| && (steps[pos].BranchDispatch? || steps[pos].WrapBranchEnvelope?)
      modifies this
      ensures Valid()
      ensures match Advance(env, old(State()))
        case Ok(m) => r.Ok? && State() == m
        case Err(e) => r == Err(e)
    {
      assert State().plan[0] == steps[pos] && State().plan[1..] == steps[pos + 1..];
      if steps[pos].BranchDispatch? {
        var s := steps[pos];
        var key := env.decodeKey(currentInput);
        if key.Err? {
          return Err(key.error);
        }
        var chosen := if key.value in s.routes then Some(s.routes[key.value]) else s.default;
        if chosen.None? {
          return Err(BranchKeyNotFound(s.branchId, key.value));
        }
        if branchInputStack != [] {
          currentInput := branchInputStack[|branchInputStack| - 1];
          branchInputStack := Pop(branchInputStack);
        }
        Splice(chosen.value.steps + [WrapBranchEnvelope(key.value)]);
      } else {
        var wrapped := env.encodeEnvelope(steps[pos].key, currentInput);
        if wrapped.Err? {
          return Err(wrapped.error);
        }
        currentInput := wrapped.value;
        pos := pos + 1;
      }
      return Ok(());
    }

    method HandleLoopStep(env: Env) returns (r: Result<(), Error>)
      requires Valid() && pos < |steps| && (steps[pos].LoopStart? || steps[pos].LoopCheck?)
      modifies this
      ensures Valid()
      ensures match Advance(env, old(State()))
        case Ok(m) => r.Ok? && State() == m
        case Err(e) => r == Err(e)
    {
      assert State().plan[0] == steps[pos] && State().plan[1..] == steps[pos + 1..];
      var s := steps[pos];
      if s.LoopStart? {
        Splice(s.body.steps + [LoopCheck(s.loopId, s.body, s.maxIterations, s.onMax, 0)]);
        return Ok(());
      }
      var d := env.decodeLoop(currentInput);
      if d.Err? {
        return Err(d.error);
      }
      if d.value.0 == "done" {
        currentInput := d.value.1;
        pos := pos + 1;
      } else if d.value.0 == "again" {
        var nextIter := s.iteration + 1;
        if nextIter >= s.maxIterations {
          if s.onMax.Fail? {
            return Err(MaxIterationsExceeded(s.loopId, s.maxIterations));
          }
          currentInput := d.value.1;
          pos := pos + 1;
        } else {
          currentInput := d.value.1;
          Splice(s.body.steps + [LoopCheck(s.loopId, s.body, s.maxIterations, s.onMax, nextIter)]);
        }
      } else {
        return Err(UnknownLoopTag(d.value.0));
      }
      return Ok(());
    }

    /** Takes the result of the task at the program counter and runs on to the next task. */
    method SubmitResult(env: Env, output: Bytes) returns (r: Result<StepResult, Error>)
      requires Valid() && State().plan != [] && State().plan[0].TaskStep?
      modifies this
      ensures Valid()
      ensures match Skip(env, Submit(old(State()), output))
        case Ok(m) => r.Ok? && State() == m && r.value.RunTask? == (m.plan != [])
                      && (r.value.RunTask? ==> r.value == RunTask(m.plan[0].id, m.current))
                      && (r.value.Finished? ==> r.value.output == m.current)
        case Err(e) => r == Err(e)
    {
      currentInput := output;
      pos := pos + 1;
      assert State() == Submit(old(State()), output);
      var s := SkipNonTasks(env);
      if s.Err? {
        return Err(s.error);
      }
      var c := Current();
      return Ok(c);
    }
  }

  /** Skipping ahead to the next task does not change what the plan computes. */
  lemma {:induction false} SkipRuns(env: Env, m: Machine)
    ensures match Skip(env, m)
      case Ok(m') => RunPlan(env, m') == RunPlan(env, m)
      case Err(e) => RunPlan(env, m) == PlanRun(Err(e), [])
    decreases Weight(m.plan)
  {
    if m.plan != [] && !m.plan[0].TaskStep? && Advance(env, m).Ok? {
      SkipRuns(env, Advance(env, m).value);
    }
  }

  /** Running the task at the head of the plan, and skipping ahead to the next one. */
  lemma TaskStepRuns(env: Env, m: Machine, calls: seq<Call>)
    requires m.plan != [] && m.plan[0].TaskStep?
    ensures
      var call := Call(m.plan[0].id, m.current);
      var whole := PlanAfter(calls, RunPlan(env, m));
      var v := env.task(call.id, call.input);
      if v.Err? then whole == PlanRun(Err(v.error), calls + [call]) else
      var next := Skip(env, Submit(m, v.value));
      if next.Err? then whole == PlanRun(Err(next.error), calls + [call]) else
      whole == PlanAfter(calls + [call], RunPlan(env, next.value)) && Weight(next.value.plan) < Weight(m.plan)
  {
    hide Skip, Advance;
    var call := Call(m.plan[0].id, m.current);
    var v := env.task(call.id, call.input);
    if v.Ok? {
      SkipRuns(env, Submit(m, v.value));
      PlanAfterAfter(calls, [call], RunPlan(env, Submit(m, v.value)));
    }
  }

  /**
   Runs a workflow without persistence: flatten, then call each requested task and submit its result.
   The caller makes at most as many calls as the plan's weight.
   */
  method RunWorkflow(env: Env, c: Cont, x: Bytes) returns (r: Result<Bytes, Error>, calls: seq<Call>)
    ensures Plan.Flatten(c).None? ==> r.Err? && r.error.UnsupportedSignal? && calls == []
    ensures Plan.Flatten(c).Some? ==> |calls| <= Weight(Plan.Flatten(c).value)
    ensures Plan.Flatten(c).Some? && Steppable(c, false) ==>
      var e := Eval(env, ByFirstTask, map[], c, x);
      && calls == e.calls
      && (e.out == if r.Ok? then Done(r.value) else Failed(r.error))
  {
    hide Advance, Eval, Plan.Flatten, StepWeight, Steppable, Skip, Weight;
    calls := [];
    var buffer := new PlanBuffer();
    var compiled := buffer.Flatten(c);
    if compiled.Err? {
      return Err(compiled.error), calls;
    }
    var stepper := new ContinuationStepper(buffer.steps, x);
    ghost var start := stepper.State();
    ghost var whole := RunPlan(env, start);
    assert start == Start(Plan.Flatten(c).value, x);
    assert |whole.calls| <= Weight(Plan.Flatten(c).value);
    if Steppable(c, false) {
      CompilerCorrect(env, c, x);
    }
    SkipRuns(env, start);
    var s := stepper.SkipNonTasks(env);
    if s.Err? {
      return Err(s.error), calls;
    }
    var step := stepper.Current();
    while step.RunTask?
      invariant fresh(stepper) && stepper.Valid()
      invariant stepper.State().plan != [] ==> stepper.State().plan[0].TaskStep?
      invariant step == if stepper.State().plan != [] then RunTask(stepper.State().plan[0].id, stepper.currentInput)
                        else Finished(stepper.currentInput)
      invariant whole == PlanAfter(calls, RunPlan(env, stepper.State()))
      decreases Weight(stepper.State().plan)
    {
      var call := Call(step.id, step.input);
      TaskStepRuns(env, stepper.State(), calls);
      var v := env.task(call.id, call.input);
      calls := calls + [call];
      if v.Err? {
        return Err(v.error), calls;
      }
      var next := stepper.SubmitResult(env, v.value);
      if next.Err? {
        return Err(next.error), calls;
      }
      step := next.value;
    }
    return Ok(step.output), calls;
  }
}
