/** What the store of an instance may hold, whatever happens to the instance. */
module CrashResume {
  import opened Prelude
  import opened Continuation
  import opened Semantics
  import opened Snapshots
  import opened Durable
  import opened DurableFresh
  import opened Agreement
  import opened DurableResume
  import opened Lifecycle
  import opened NoRepeat
  import opened Growth
  import opened Runs
  import opened Histories

  /**
   A resume feeds the last recorded output, not the original input, into the root. That is harmless
   when the walk's first use of its input is already recorded whenever anything is: the tree starts,
   through delays and children, with a task or a signal wait.
   */
  predicate RootSafe(c: Cont) {
    match c
    case Task(_, _, _, _) => true
    case AwaitSignal(_, _, _, _) => true
    case Delay(_, _, next) => next.None? || RootSafe(next.value)
    case ChildWorkflow(_, child, _) => RootSafe(child)
    case _ => false
  }

  /** The walk from `c` does not use its input. */
  predicate Settled(c: Cont, done: Recorded) {
    match c
    case Delay(id, _, next) => id in done && next.Some? && Settled(next.value, done)
    case ChildWorkflow(id, child, _) => id in done || Settled(child, done)
    case _ => c.id in done
  }

  lemma {:induction false} SettledWalk(env: Env, o: Oracle, c: Cont, x: Bytes, y: Bytes, w: World)
    requires RootSafe(c) && Settled(c, Results(w.snap))
    ensures Exec(env, o, c, x, w) == Exec(env, o, c, y, w)
    decreases c
  {
    match c
    case Delay(id, _, next) =>
      GuardEffect(o, Some(id), w);
      SettledWalk(env, o, next.value, x, y, Guard(o, Some(id), w).1);
    case ChildWorkflow(id, child, _) =>
      GuardEffect(o, Some(id), w);
      if id !in Results(w.snap) {
        SettledWalk(env, o, child, x, y, Guard(o, Some(id), w).1);
      }
    case _ => GuardEffect(o, Some(c.id), w);
  }

  /** Something is recorded, so the head is settled, or all that is recorded is the input passed through delays. */
  lemma {:induction false} HeadRecorded(env: Env, c: Cont, x: Bytes, done: Recorded)
    requires RootSafe(c) && Agree(env, c, x, done) && !(Ids(c) !! done.Keys)
    ensures Settled(c, done) || forall k :: k in done && k in Ids(c) ==> done[k] == x
    decreases c
  {
    match c
    case Delay(id, _, next) =>
      assert id in done;
      if next.Some? {
        if !(Ids(next.value) !! done.Keys) {
          HeadRecorded(env, next.value, x, done);
        }
      }
    case ChildWorkflow(id, child, _) =>
      if id !in done {
        HeadRecorded(env, child, x, done);
      }
    case Task(_, _, _, _) => assert c.id in done;
    case AwaitSignal(_, _, _, _) => assert c.id in done;
  }

  /** Resuming a faithful snapshot walks as if from the original input. */
  lemma ResumeWalk(env: Env, o: Oracle, c: Cont, x: Bytes, w: World)
    requires RootSafe(c) && w.snap.state.InProgress? && LastRecorded(w.snap) && w.snap.initialInput == Some(x)
    requires Extends(map[], Results(w.snap), Owned(c)) && Agree(env, c, x, Results(w.snap))
    ensures ResumeInput(w.snap).Some? && Exec(env, o, c, ResumeInput(w.snap).value, w) == Exec(env, o, c, x, w)
  {
    hide Exec, Agree;
    var done := Results(w.snap);
    if done != map[] {
      var last := w.snap.state.last.value;
      assert last in Ids(c) && last in done.Keys;
      HeadRecorded(env, c, x, done);
      if Settled(c, done) {
        SettledWalk(env, o, c, ResumeInput(w.snap).value, x, w);
      }
    }
  }

  // ----- the invariant of a whole history -----

  /** The last snapshot saved before the instance completed or failed, or the last one at all. */
  function LastRest(trace: seq<Event>): Option<Snapshot> {
    if trace == [] then None else
    var n := |trace| - 1;
    if trace[n].Saved? && Resting(trace[n].snapshot) then Some(trace[n].snapshot) else LastRest(trace[..n])
  }

  /**
   The results known at the end of a history. An instance that completed while it waited for a signal
   completed with the answer to that signal.
   */
  function Answers(w: World): Recorded {
    var rest := LastRest(w.trace);
    if rest.None? then map[] else
    var s := rest.value;
    if w.saved.state.Completed? && s.state.InProgress? && s.state.position.AtSignal? then
      With(Results(s), s.state.position.signalId, w.saved.state.output)
    else Results(s)
  }

  /** The backend never reports a failure. */
  ghost predicate Reliable(o: Oracle) {
    && (forall t: nat :: !o.guard(t).GuardFails?)
    && (forall t: nat :: !o.save(t).RefusedBefore? && !o.save(t).RefusedAfter?)
    && (forall t: nat, name :: !o.mail(t, name).MailFails?)
  }

  /** What the store may hold at any time, and which calls have been made. */
  ghost predicate Faithful(env: Env, o: Oracle, c: Cont, x: Bytes, w: World) {
    Coherent(w) &&
    match w.saved.state {
      case Completed(output) => Over(env, c, x, w) && Eval(env, ByNodeId, Answers(w), c, x).out == Done(output)
      case Errored => Over(env, c, x, w) && (Reliable(o) ==> !Eval(env, ByNodeId, Answers(w), c, x).out.Done?)
      case _ => Sound(env, c, x, w.saved, w)
    }
  }

  /** All calls are ones the semantics makes, given the known results. */
  ghost predicate Over(env: Env, c: Cont, x: Bytes, w: World) {
    Adds([], w.trace, Demand(env, Answers(w), c, x))
  }

  lemma {:induction false} LastRestOfSaved(trace: seq<Event>)
    ensures LastSaved(trace).Some? && Resting(LastSaved(trace).value) ==> LastRest(trace) == LastSaved(trace)
    decreases |trace|
  {
    if trace != [] && !trace[|trace| - 1].Saved? {
      LastRestOfSaved(trace[..|trace| - 1]);
    }
  }

  /** The end of an instance does not count as its last rest. */
  lemma LastRestBefore(trace: seq<Event>, s: Snapshot)
    requires !Resting(s)
    ensures LastRest(trace + [Saved(s)]) == LastRest(trace)
  {
    assert (trace + [Saved(s)])[..|trace|] == trace;
  }

  /** A resting store holds the known results. */
  lemma AnswersAtRest(w: World)
    requires Coherent(w) && Resting(w.saved)
    ensures LastRest(w.trace) == Some(w.saved) && Answers(w) == Results(w.saved)
  {
    LastRestOfSaved(w.trace);
  }

  /** `s` is a faithful snapshot that accounts for all calls made so far. */
  ghost predicate Sound(env: Env, c: Cont, x: Bytes, s: Snapshot, w: World) {
    && Good(env, c, x, true, map[], s) && s.initialInput == Some(x) && Coherent(w)
    && Adds([], w.trace, Demand(env, Results(s), c, x))
  }

  /** A snapshot that is good relative to a good start is good from the beginning. */
  lemma GoodFromStart(env: Env, c: Cont, x: Bytes, base: Recorded, s: Snapshot)
    requires Extends(map[], base, Owned(c)) && Good(env, c, x, true, base, s)
    ensures Good(env, c, x, true, map[], s)
  {
    hide Agree, Eval, Owned;
    ExtendsTrans(map[], base, Results(s), Owned(c), Owned(c), Owned(c));
    if (s.state.InProgress? || s.state.Paused?) && s.state.position.AtSignal? {
      var p, done := s.state.position, s.state.completed;
      forall v | Admits(env, p, v)
        ensures Answered(env, c, x, true, map[], p.nextTaskId.None?, With(done, p.signalId, v), v)
      {
        assert Answered(env, c, x, true, base, p.nextTaskId.None?, With(done, p.signalId, v), v);
        ExtendsTrans(map[], base, With(done, p.signalId, v), Owned(c), Owned(c), Owned(c));
      }
    }
  }

  /** Trees that may be crashed and resumed at will. */
  predicate Supported(c: Cont) {
    Distinct(c) && Resumable(c, true) && RootSafe(c)
  }

  lemma {:induction false} SupportedLoopFree(c: Cont, top: bool)
    requires Resumable(c, top)
    ensures LoopFree(c)
    decreases c, 1
  {
    SupportedLoopFreeNode(c, top);
    if Next(c).Some? {
      SupportedLoopFree(Next(c).value, top);
    }
  }

  lemma {:induction false} SupportedLoopFreeNode(c: Cont, top: bool)
    requires ResumableNode(c, top)
    ensures LoopFreeNode(c)
    decreases c, 0
  {
    match c
    case Fork(_, branches, _) =>
      forall b | b in branches ensures LoopFree(b) {
        SupportedLoopFree(b, false);
      }
    case Branch(_, _, routes, default, _) =>
      forall k | k in routes ensures LoopFree(routes[k]) {
        SupportedLoopFree(routes[k], false);
      }
      if default.Some? {
        SupportedLoopFree(default.value, false);
      }
    case ChildWorkflow(_, child, _) => SupportedLoopFree(child, false);
    case _ =>
  }

  /** A walk from a live, sound world keeps the store faithful and returns only right results. */
  lemma WalkFaithful(env: Env, o: Oracle, c: Cont, x: Bytes, w: World)
    requires Honest(env, o) && Supported(c) && Live(w) && Sound(env, c, x, w.snap, w)
    ensures Faithful(env, o, c, x, Walk(env, o, c, x, w).1)
  {
    RunChain(env, o, c, x, true, w);
    SupportedLoopFree(c, true);
    ExecForward(env, o, c, x, w);
    if Reliable(o) {
      ReliableExec(env, o, c, x, w);
    }
    var (r, w1) := Exec(env, o, c, x, w);
    GoodFromStart(env, c, x, Results(w.snap), w1.saved);
    hide Agree, Eval, Owned, Ids, Demand, Exec, Good, Reliable;
    var d := Demand(env, Results(w1.saved), c, x);
    DemandGrows(env, c, x, Results(w.snap), Results(w1.saved));
    AddsTrans([], w.trace, w1.trace, Demand(env, Results(w.snap), c, x), d, d);
    FinalizeFaithful(env, o, c, x, r, w1);
  }

  lemma FinalizeFaithful(env: Env, o: Oracle, c: Cont, x: Bytes, r: ExecResult, w: World)
    requires Resting(w.saved) && Sound(env, c, x, w.saved, w)
    requires r.Ok? ==> Live(w) && Eval(env, ByNodeId, Results(w.snap), c, x).out == Done(r.value)
    requires r.Err? && r.error.Raised? ==> Live(w) && !Eval(env, ByNodeId, Results(w.snap), c, x).out.Done?
    requires Reliable(o) ==> r.Ok? || !r.error.BackendFailure?
    ensures Faithful(env, o, c, x, Finalize(o, r, w))
  {
    hide Agree, Eval, Demand, Good, Reliable, LastRest;
    AnswersAtRest(w);
    var d := Demand(env, Results(w.saved), c, x);
    var w' := Finalize(o, r, w);
    FinalizeForward(o, r, w);
    var s := if r.Ok? then MarkCompleted(w.snap, r.value) else MarkFailed(w.snap);
    AddsSaved([], w.trace, d, s);
    LastRestBefore(w.trace, s);
    assert (w'.saved == w.saved && w'.trace == w.trace) || (w'.saved == s && w'.trace == w.trace + [Saved(s)]);
    assert r.Ok? ==> !w.saved.state.position.AtSignal?;
    assert w'.saved == s ==> Answers(w') == Results(w.saved);
  }

  // ----- a reliable backend causes no failures -----

  /** No part of the walk fails because of the backend. */
  lemma {:induction false} ReliableExec(env: Env, o: Oracle, c: Cont, x: Bytes, w: World)
    requires Reliable(o) && LoopFree(c)
    ensures var (r, _) := Exec(env, o, c, x, w); r.Ok? || !r.error.BackendFailure?
    decreases c, 2
  {
    hide ExecNode, Reliable;
    ReliableNode(env, o, c, x, w);
    var (r, w1) := ExecNode(env, o, c, x, w);
    if r.Ok? && Next(c).Some? {
      ReliableExec(env, o, Next(c).value, r.value, w1);
    }
  }

  lemma {:induction false} ReliableNode(env: Env, o: Oracle, c: Cont, x: Bytes, w: World)
    requires Reliable(o) && LoopFreeNode(c)
    ensures var (r, _) := ExecNode(env, o, c, x, w); r.Ok? || !r.error.BackendFailure?
    decreases c, 1
  {
    hide Exec, ExecBranches, Results, FirstTaskId;
    match c
    case Fork(_, branches, _) => ReliableBranches(env, o, branches, x, [], None, Guard(o, None, w).1);
    case Branch(id, _, _, _, _) =>
      var (k, w2) := CallTask(env, o, KeyFnId(id), x, true, Guard(o, Some(id), w).1);
      if k.Ok? && Choose(env, c, k.value).Ok? {
        ReliableExec(env, o, Choose(env, c, k.value).value.1, x, w2);
      }
    case ChildWorkflow(id, child, _) => ReliableExec(env, o, child, x, Guard(o, Some(id), w).1);
    case _ =>
  }

  lemma {:induction false} ReliableBranches(
      env: Env, o: Oracle, branches: seq<Cont>, x: Bytes, results: seq<(string, Bytes)>, wake: Option<int>, w: World)
    requires Reliable(o) && forall b :: b in branches ==> LoopFree(b)
    ensures var (r, _) := ExecBranches(env, o, branches, x, results, wake, w); r.Ok? || !r.error.BackendFailure?
    decreases branches, 3
  {
    hide Exec, LoopFree;
    if branches != [] {
      var b, rest := branches[0], branches[1..];
      if TaskResult(w.snap, b.id).Some? {
        ReliableBranches(env, o, rest, x, results + [(b.id, TaskResult(w.snap, b.id).value)], wake, w);
      } else {
        ReliableExec(env, o, b, x, w);
        var (r, w1) := Exec(env, o, b, x, w);
        if r.Ok? {
          ReliableBranches(env, o, rest, x, results + [(b.id, r.value)], wake, Record(o, b.id, r.value, w1).1);
        } else if r.error.Waiting? {
          ReliableBranches(env, o, rest, x, results, Later(wake, r.error.wakeAt), w1);
        }
      }
    }
  }

  // ----- resolving a parked position -----

  /** A guard during a resume. */
  lemma GuardSound(env: Env, o: Oracle, scope: Option<string>, c: Cont, x: Bytes, w: World)
    requires w.saved.state.InProgress? && Sound(env, c, x, w.saved, w)
    ensures
      var (g, w1) := Guard(o, scope, w);
      && w1.snap == w.snap && Resting(w1.saved) && Sound(env, c, x, w1.saved, w1)
      && (g.None? ==> w1 == w.(tick := w.tick + 1))
  {
    hide Agree, Eval, Demand, Owned, PositionGood, Guard;
    GuardForward(o, scope, w);
    GuardEffect(o, scope, w);
    var (g, w1) := Guard(o, scope, w);
    AddsSaved([], w.trace, Demand(env, Results(w.saved), c, x), w1.saved);
  }

  /** Saving a good snapshot during a resume. */
  lemma SaveSound(env: Env, o: Oracle, c: Cont, x: Bytes, w: World)
    requires Resting(w.saved) && Sound(env, c, x, w.saved, w)
    requires Good(env, c, x, true, map[], w.snap) && w.snap.initialInput == Some(x)
    requires Grows(Results(w.saved), Results(w.snap))
    ensures
      var (f, w1) := SaveOrFail(o, w);
      && w1.snap == w.snap && Resting(w1.saved) && Sound(env, c, x, w1.saved, w1)
      && (f.None? ==> w1.saved == w.snap)
  {
    hide Extends, Ids;
    CheckpointForward(o, w);
    DemandGrows(env, c, x, Results(w.saved), Results(w.snap));
    hide Agree, Eval, Demand, Owned, PositionGood, Good;
    var a, b := Demand(env, Results(w.saved), c, x), Demand(env, Results(w.snap), c, x);
    assert Adds([], w.trace, b);
    AddsSaved([], w.trace, b, w.snap);
  }

  /** Completing the workflow at its last wait, with the results known then. */
  lemma CompleteFaithful(env: Env, o: Oracle, c: Cont, x: Bytes, output: Bytes, done: Recorded, w: World)
    requires w.saved.state.InProgress? && Sound(env, c, x, w.saved, w) && w.snap.state.InProgress?
    requires
      var s := w.saved.state;
      done == if s.position.AtSignal? then With(s.completed, s.position.signalId, output) else s.completed
    requires Grows(Results(w.saved), done) && Eval(env, ByNodeId, done, c, x).out == Done(output)
    ensures var (f, w1) := CompleteAtWait(o, output, w); f.Some? && Faithful(env, o, c, x, w1)
  {
    hide Exec, Ids, Distinct;
    DemandGrows(env, c, x, Results(w.saved), done);
    hide Agree, Eval, Demand, Owned, PositionGood, Good, LastRest;
    var s := MarkCompleted(w.snap, output);
    AnswersAtRest(w);
    LastRestBefore(w.trace, s);
    CheckpointForward(o, w.(snap := s));
    assert Adds([], w.trace, Demand(env, done, c, x));
    AddsSaved([], w.trace, Demand(env, done, c, x), s);
    var w1 := CompleteAtWait(o, output, w).1;
    assert (w1.saved == w.saved && w1.trace == w.trace) || (w1.saved == s && w1.trace == w.trace + [Saved(s)]);
    assert w1.saved == s ==> Answers(w1) == done;
  }

  /** What resolving a parked position must achieve. */
  ghost predicate Resolved(env: Env, o: Oracle, c: Cont, x: Bytes, hold: Option<Report>, w: World) {
    Faithful(env, o, c, x, w) && (hold.None? ==> Live(w) && Sound(env, c, x, w.snap, w))
  }

  /** An answered signal is recorded faithfully, or ends the workflow with the payload. */
  lemma AnswerFaithful(env: Env, o: Oracle, c: Cont, x: Bytes, p: Position, payload: Bytes, w: World)
    requires w.snap.state.InProgress? && w.snap == w.saved && Sound(env, c, x, w.saved, w)
    requires p.AtSignal? && w.snap.state.position == p && Admits(env, p, payload)
    ensures
      var (f, w1) := AnswerSignal(o, p, payload, w);
      Resolved(env, o, c, x, f, w1)
  {
    hide Agree, Eval, Demand, Owned;
    var w1 := Mark(w, p.signalId, payload);
    assert Answered(
      env, c, x, true, map[], p.nextTaskId.None?, With(w.snap.state.completed, p.signalId, payload), payload);
    if p.nextTaskId.Some? {
      SaveSound(env, o, c, x, MoveTo(w1, AtTask(p.nextTaskId.value)));
    } else {
      CompleteFaithful(env, o, c, x, payload, w1.snap.state.completed, w1);
    }
  }

  lemma ResolveDelay(env: Env, o: Oracle, c: Cont, x: Bytes, w: World)
    requires w.snap.state.InProgress? && w.snap == w.saved && Sound(env, c, x, w.saved, w)
    requires w.snap.state.position.AtDelay?
    ensures var (hold, w1) := ResolveParked(o, w); Resolved(env, o, c, x, hold, w1)
  {
    hide Agree, Eval, Demand, Owned, Guard, SaveOrFail, CompleteAtWait, Adds, Extends, Answered;
    var p := w.snap.state.position;
    GuardSound(env, o, Some(p.delayId), c, x, w);
    var (g, w1) := Guard(o, Some(p.delayId), w);
    if g.None? {
      if p.nextTaskId.Some? {
        SaveSound(env, o, c, x, MoveTo(w1, AtTask(p.nextTaskId.value)));
      } else {
        CompleteFaithful(env, o, c, x, w.snap.state.completed[p.delayId], w.snap.state.completed, w1);
      }
    }
  }

  lemma ResolveFork(env: Env, o: Oracle, c: Cont, x: Bytes, w: World)
    requires w.snap.state.InProgress? && w.snap == w.saved && Sound(env, c, x, w.saved, w)
    requires w.snap.state.position.AtFork?
    ensures var (hold, w1) := ResolveParked(o, w); Resolved(env, o, c, x, hold, w1)
  {
    hide Agree, Eval, Demand, Owned, Guard, SaveOrFail, Adds, Extends, Answered;
    var p := w.snap.state.position;
    GuardSound(env, o, Some(p.forkId), c, x, w);
    var (g, w1) := Guard(o, Some(p.forkId), w);
    if g.None? {
      SaveSound(env, o, c, x, w1);
    }
  }

  lemma ResolveSignal(env: Env, o: Oracle, c: Cont, x: Bytes, w: World)
    requires Honest(env, o)
    requires w.snap.state.InProgress? && w.snap == w.saved && Sound(env, c, x, w.saved, w)
    requires w.snap.state.position.AtSignal?
    ensures var (hold, w1) := ResolveParked(o, w); Resolved(env, o, c, x, hold, w1)
  {
    hide Agree, Eval, Demand, Owned, Guard, AnswerSignal, Good, Adds;
    var p := w.snap.state.position;
    GuardSound(env, o, Some(p.signalId), c, x, w);
    var (g, w1) := Guard(o, Some(p.signalId), w);
    if g.None? {
      var w2 := w1.(tick := w1.tick + 1);
      if p.deadline.Some? {
        AnswerFaithful(env, o, c, x, p, [], w2);
      }
      if o.mail(w1.tick, p.signalName).Delivered? {
        AnswerFaithful(env, o, c, x, p, o.mail(w1.tick, p.signalName).payload, w2);
      }
    }
  }

  lemma ResolveFaithful(env: Env, o: Oracle, c: Cont, x: Bytes, w: World)
    requires Honest(env, o) && w.snap.state.InProgress? && w.snap == w.saved && Sound(env, c, x, w.saved, w)
    ensures var (hold, w1) := ResolveParked(o, w); Resolved(env, o, c, x, hold, w1)
  {
    match w.snap.state.position
    case AtDelay(_, _, _, _) => ResolveDelay(env, o, c, x, w);
    case AtFork(_, _, _) => ResolveFork(env, o, c, x, w);
    case AtSignal(_, _, _, _) => ResolveSignal(env, o, c, x, w);
    case _ =>
      hide Agree, Eval, Demand, Owned;
      assert ResolveParked(o, w) == (None, w);
  }

  lemma AttemptFaithful(env: Env, o: Oracle, c: Cont, x: Bytes, w: World)
    requires Honest(env, o) && Supported(c) && Faithful(env, o, c, x, w)
    ensures Faithful(env, o, c, x, Attempt(env, o, c, w).1)
  {
    var w1 := w.(snap := w.saved);
    if w1.snap.state.InProgress? {
      hide Agree, Eval, Demand, Owned, ResolveParked, Exec, Finalize, Distinct, Resumable, RootSafe;
      ResolveFaithful(env, o, c, x, w1);
      var (hold, w2) := ResolveParked(o, w1);
      if hold.None? {
        ResumeWalk(env, o, c, x, w2);
        WalkFaithful(env, o, c, x, w2);
      }
    }
  }

  lemma UnpauseFaithful(env: Env, o: Oracle, c: Cont, x: Bytes, w: World)
    requires Faithful(env, o, c, x, w)
    ensures Faithful(env, o, c, x, Perform(env, o, c, Unpause, w))
  {
    hide Adds, Extends;
    hide Agree, Eval, Demand, Owned, PositionGood;
    if w.saved.state.Paused? {
      SaveForward(o, MarkUnpaused(w.saved), w);
      AddsSaved([], w.trace, Demand(env, Results(w.saved), c, x), MarkUnpaused(w.saved));
    }
  }

  lemma CreatedSound(env: Env, c: Cont, x: Bytes)
    ensures var w := Created(c, x); Live(w) && Sound(env, c, x, w.snap, w)
  {
    AgreeUntouched(env, c, x, map[]);
    hide Agree, Eval, Demand, Owned;
  }

  /** Every history of a supported tree keeps the store faithful. */
  lemma {:induction false} HistoryFaithful(env: Env, o: Oracle, c: Cont, x: Bytes, actions: seq<Action>)
    requires Honest(env, o) && Supported(c)
    ensures Faithful(env, o, c, x, History(env, o, c, x, actions))
    decreases |actions|
  {
    hide Faithful, Supported, Attempt, Walk;
    if actions == [] {
      CreatedSound(env, c, x);
      WalkFaithful(env, o, c, x, Created(c, x));
    } else {
      var n := |actions| - 1;
      HistoryFaithful(env, o, c, x, actions[..n]);
      var w := History(env, o, c, x, actions[..n]);
      if actions[n].Resume? {
        AttemptFaithful(env, o, c, x, w);
      } else {
        UnpauseFaithful(env, o, c, x, w);
      }
    }
  }

  lemma AddsAll(t: seq<Event>, allowed: iset<Call>)
    requires Adds([], t, allowed)
    ensures forall e :: e in t && e.Called? ==> Call(e.id, e.input) in allowed
  {
    forall e | e in t && e.Called? ensures Call(e.id, e.input) in allowed {
      var i :| 0 <= i < |t| && t[i] == e;
    }
  }
}
