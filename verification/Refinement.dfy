/**
 Crash-resume refinement: whatever happens to an instance, it only completes with the right result, after
 exactly the right calls, and everything it saves on the way is right.
 */
module Refinement {
  import opened Prelude
  import opened Continuation
  import opened Semantics
  import opened Snapshots
  import opened Durable
  import opened Agreement
  import opened DurableResume
  import opened Lifecycle
  import opened Runs
  import opened Histories
  import opened CrashResume

  // ----- what a finished run demands is what it calls -----

  lemma {:induction false} DemandIsCalls(env: Env, done: Recorded, c: Cont, x: Bytes, top: bool)
    requires Resumable(c, top) && Eval(env, ByNodeId, done, c, x).out.Done?
    ensures forall call :: call in Demand(env, done, c, x) <==> call in Eval(env, ByNodeId, done, c, x).calls
    decreases c, 2
  {
    hide EvalNode, DemandNode, ResumableNode;
    DemandNodeIsCalls(env, done, c, x, top);
    var r := EvalNode(env, ByNodeId, done, c, x);
    if Next(c).Some? {
      DemandIsCalls(env, done, Next(c).value, r.out.value, top);
    }
  }

  lemma {:induction false} DemandNodeIsCalls(env: Env, done: Recorded, c: Cont, x: Bytes, top: bool)
    requires ResumableNode(c, top) && EvalNode(env, ByNodeId, done, c, x).out.Done?
    ensures forall call :: call in DemandNode(env, done, c, x) <==> call in EvalNode(env, ByNodeId, done, c, x).calls
    decreases c, 1
  {
    hide Eval, Demand, EvalBranches, Resumable;
    match c
    case Fork(_, branches, _) =>
      EvalBranchesStop(env, branches, x, done);
      DemandBranchesIsCalls(env, done, branches, x);
    case Branch(id, _, _, _, _) =>
      var k := env.task(KeyFnId(id), x);
      DemandIsCalls(env, done, Choose(env, c, k.value).value.1, x, false);
    case ChildWorkflow(_, child, _) => DemandIsCalls(env, done, child, x, false);
    case _ =>
  }

  lemma {:induction false} DemandBranchesIsCalls(env: Env, done: Recorded, branches: seq<Cont>, x: Bytes)
    requires EvalBranches(env, ByNodeId, done, branches, x).stop.None?
    requires forall b :: b in branches ==> Resumable(b, false)
    ensures forall call ::
      (exists b :: b in branches && call in Demand(env, done, b, x)) <==>
        call in EvalBranches(env, ByNodeId, done, branches, x).calls
    decreases branches, 3
  {
    hide Eval, Demand, Resumable;
    if branches != [] {
      DemandIsCalls(env, done, branches[0], x, false);
      DemandBranchesIsCalls(env, done, branches[1..], x);
      var r, rest := Eval(env, ByNodeId, done, branches[0], x), EvalBranches(env, ByNodeId, done, branches[1..], x);
      forall call
        ensures (exists b :: b in branches && call in Demand(env, done, b, x)) <==>
          call in r.calls || call in rest.calls
      {
        if call in rest.calls {
          var b :| b in branches[1..] && call in Demand(env, done, b, x);
          assert b in branches;
        } else if call in r.calls {
          assert branches[0] in branches;
        } else {
          assert forall b :: b in branches ==> b == branches[0] || b in branches[1..];
        }
      }
    }
  }

  // ----- a call that is refused is a call that matters -----

  /** The same tasks, except that the call fails. */
  function Refusing(env: Env, call: Call): Env {
    env.(task := (id: string, x: Bytes) => if Call(id, x) == call then Err(TaskError("refused")) else env.task(id, x))
  }

  /** If the evaluation makes the call then refusing it spoils the result; otherwise nothing changes. */
  lemma {:induction false} EvalRefused(env: Env, call: Call, done: Recorded, c: Cont, x: Bytes, top: bool)
    requires Resumable(c, top)
    ensures
      var r, r' := Eval(env, ByNodeId, done, c, x), Eval(Refusing(env, call), ByNodeId, done, c, x);
      if call in r.calls then !r'.out.Done? else r' == r
    decreases c, 2
  {
    hide EvalNode, ResumableNode, Refusing;
    NodeRefused(env, call, done, c, x, top);
    var r := EvalNode(env, ByNodeId, done, c, x);
    if call !in r.calls && r.out.Done? && Next(c).Some? {
      EvalRefused(env, call, done, Next(c).value, r.out.value, top);
    }
  }

  lemma {:induction false} NodeRefused(env: Env, call: Call, done: Recorded, c: Cont, x: Bytes, top: bool)
    requires ResumableNode(c, top)
    ensures
      var r, r' := EvalNode(env, ByNodeId, done, c, x), EvalNode(Refusing(env, call), ByNodeId, done, c, x);
      if call in r.calls then !r'.out.Done? else r' == r
    decreases c, 1
  {
    hide Eval, EvalBranches, Resumable;
    match c
    case Fork(_, branches, _) => BranchesRefused(env, call, done, branches, x);
    case Branch(id, _, _, _, _) =>
      var k := Invoke(env, KeyFnId(id), x);
      if call !in k.calls && k.out.Done? && Choose(env, c, k.out.value).Ok? {
        EvalRefused(env, call, done, Choose(env, c, k.out.value).value.1, x, false);
      }
    case ChildWorkflow(_, child, _) => EvalRefused(env, call, done, child, x, false);
    case _ =>
  }

  lemma {:induction false} BranchesRefused(env: Env, call: Call, done: Recorded, branches: seq<Cont>, x: Bytes)
    requires forall b :: b in branches ==> Resumable(b, false)
    ensures
      var g := EvalBranches(env, ByNodeId, done, branches, x);
      var g' := EvalBranches(Refusing(env, call), ByNodeId, done, branches, x);
      if call in g.calls then g'.stop.Some? && !g'.stop.value.Done? else g' == g
    decreases branches, 3
  {
    hide Eval, Resumable, Refusing;
    if branches != [] {
      EvalRefused(env, call, done, branches[0], x, false);
      BranchesRefused(env, call, done, branches[1..], x);
    }
  }

  // ----- the refinement theorem -----

  /** The call is in the history. */
  ghost predicate Made(trace: seq<Event>, call: Call) {
    exists e :: e in trace && e.Called? && Call(e.id, e.input) == call
  }

  /**
   A completed instance has made every call of the evaluation. Otherwise the same history would unfold
   with the missing call refused, and complete although the evaluation then fails.
   */
  lemma NoCallIsMissing(env: Env, o: Oracle, c: Cont, x: Bytes, actions: seq<Action>, call: Call)
    requires Honest(env, o) && Supported(c)
    requires
      var w := History(env, o, c, x, actions);
      w.saved.state.Completed? && call in Eval(env, ByNodeId, Answers(w), c, x).calls
    ensures Made(History(env, o, c, x, actions).trace, call)
  {
    var w, env' := History(env, o, c, x, actions), Refusing(env, call);
    if !Made(w.trace, call) {
      SupportedLoopFree(c, true);
      assert SameAnswers(env, o, env', o, Created(c, x), w) by {
        forall i | 0 <= i < |w.trace| && w.trace[i].Called?
          ensures env'.task(w.trace[i].id, w.trace[i].input) == env.task(w.trace[i].id, w.trace[i].input)
        {
          assert w.trace[i] in w.trace;
        }
      }
      HistoryLocal(env, o, env', o, c, x, actions);
      HistoryFaithful(env', o, c, x, actions);
      EvalRefused(env, call, Answers(w), c, x, true);
      assert false;
    }
  }

  /** Every snapshot in the history that has not ended agrees with the semantics. */
  lemma SavesAgree(env: Env, o: Oracle, c: Cont, x: Bytes, actions: seq<Action>, s: Snapshot)
    requires Honest(env, o) && Supported(c) && Saved(s) in History(env, o, c, x, actions).trace && Resting(s)
    ensures Agree(env, c, x, Results(s))
  {
    var w := History(env, o, c, x, actions);
    var i :| 0 <= i < |w.trace| && w.trace[i] == Saved(s);
    SupportedLoopFree(c, true);
    hide Agree, Supported, History;
    if i == 0 {
      HistoryForward(env, o, c, x, actions);
      assert w.trace[0] == Created(c, x).trace[0];
      AgreeUntouched(env, c, x, map[]);
    } else {
      var t, n := HistoryCut(env, o, c, x, actions, i);
      CutClock(o, t);
      HistoryFaithful(env, CutAt(o, t), c, x, actions[..n]);
    }
  }

  /** What a history has done, measured against the semantics with the results known at its end. */
  ghost predicate Accounted(env: Env, o: Oracle, c: Cont, x: Bytes, w: World) {
    var r := Eval(env, ByNodeId, Answers(w), c, x);
    && (forall call :: Made(w.trace, call) ==> call in Demand(env, Answers(w), c, x))
    && (w.saved.state.Completed? ==> r.out == Done(w.saved.state.output))
    && (w.saved.state.Completed? ==> forall call :: Made(w.trace, call) <==> call in r.calls)
    && (w.saved.state.Errored? && Reliable(o) ==> !r.out.Done?)
    && (forall s :: Saved(s) in w.trace && Resting(s) ==> Agree(env, c, x, Results(s)))
  }

  /**
   Crash-resume refinement. After a launch and any sequence of resumes and unpauses, under any
   crashes, refused saves, requests and signals, every call made is one the reference semantics makes
   on the original input, with the input it gives it. A completed instance holds the result of the
   semantics, and has made exactly the calls of that evaluation. An instance that failed, with a backend
   that does not, is one the semantics gives no result. Every snapshot saved on the way is right.
   */
  lemma CrashResumeRefinement(env: Env, o: Oracle, c: Cont, x: Bytes, actions: seq<Action>)
    requires Honest(env, o) && Supported(c)
    ensures Accounted(env, o, c, x, History(env, o, c, x, actions))
  {
    HistoryFaithful(env, o, c, x, actions);
    var w := History(env, o, c, x, actions);
    assert w.saved.state.Completed? ==> Eval(env, ByNodeId, Answers(w), c, x).out == Done(w.saved.state.output);
    CallsDemanded(env, o, c, x, w);
    if w.saved.state.Completed? {
      DemandIsCalls(env, Answers(w), c, x, true);
    }
    hide Eval, Demand, History, Good, Agree, Answers, Supported;
    forall s | Saved(s) in w.trace && Resting(s) ensures Agree(env, c, x, Results(s)) {
      SavesAgree(env, o, c, x, actions, s);
    }
    if w.saved.state.Completed? {
      forall call | call in Eval(env, ByNodeId, Answers(w), c, x).calls ensures Made(w.trace, call) {
        NoCallIsMissing(env, o, c, x, actions, call);
      }
    }
  }

  lemma CallsDemanded(env: Env, o: Oracle, c: Cont, x: Bytes, w: World)
    requires Faithful(env, o, c, x, w)
    ensures forall call :: Made(w.trace, call) ==> call in Demand(env, Answers(w), c, x)
  {
    hide Eval, Demand, Good;
    if Resting(w.saved) {
      AnswersAtRest(w);
    }
    AddsAll(w.trace, Demand(env, Answers(w), c, x));
  }
}
