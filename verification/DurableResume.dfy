/**
 One attempt of the durable executor, from any faithful snapshot and under any oracle: whatever is
 saved stays faithful, a result that is returned is the one of the reference semantics, and every
 call receives the input the semantics gives it.
 */
module DurableResume {
  import opened Prelude
  import opened Continuation
  import opened Semantics
  import opened Snapshots
  import opened Durable
  import opened DurableFresh
  import opened Agreement

  /**
   The trees a crashed run can be resumed on. A branch of a fork must be a single node (its id is also
   the cache key of the whole branch), unless it starts with a fork, whose own id is not used
   otherwise. A wait at the end of a chain may only end the whole workflow (`top`). There are no loops.
   */
  predicate Resumable(c: Cont, top: bool)
    decreases c, 1
  {
    ResumableNode(c, top) && (Next(c).Some? ==> Resumable(Next(c).value, top))
  }

  predicate ResumableNode(c: Cont, top: bool)
    decreases c, 0
  {
    match c
    case Task(_, _, _, _) => true
    case Delay(_, _, next) => next.Some? || top
    case AwaitSignal(_, _, _, next) => next.Some? || top
    case Fork(_, branches, _) =>
      forall b :: b in branches ==> Resumable(b, false) && (b.Fork? || Next(b).None?)
    case Branch(_, _, routes, default, _) =>
      && (forall k :: k in routes ==> Resumable(routes[k], false))
      && (default.Some? ==> Resumable(default.value, false))
    case Loop(_, _, _, _, _) => false
    case ChildWorkflow(_, child, _) => Resumable(child, false)
  }

  /** A position that does not make a resume end the workflow or record a result. */
  predicate Neutral(p: Position) {
    !p.AtSignal? && (p.AtDelay? ==> p.nextTaskId.Some?)
  }

  predicate Resting(s: Snapshot) {
    s.state.InProgress? || s.state.Paused? || s.state.Cancelled?
  }

  predicate LastRecorded(s: Snapshot) {
    (s.state.InProgress? || s.state.Paused?) && s.state.completed != map[] ==>
      s.state.last.Some? && s.state.last.value in s.state.completed
  }

  function With(done: Recorded, id: string, v: Bytes): Recorded {
    done[id := v]
  }

  /** `s` extends `base` with faithful results of the node `c`; `last` says whether `c` ends the workflow. */
  ghost predicate GoodNode(env: Env, c: Cont, x: Bytes, last: bool, base: Recorded, s: Snapshot) {
    && Resting(s) && LastRecorded(s)
    && Extends(base, Results(s), NodeOwned(c))
    && AgreeNode(env, c, x, Results(s))
    && (s.state.InProgress? || s.state.Paused? ==>
      PositionGoodNode(env, c, x, last, base, s.state.position, s.state.completed))
  }

  /** What may answer the wait a snapshot is parked at. */
  predicate Admits(env: Env, p: Position, v: Bytes)
    requires p.AtSignal?
  {
    MayAnswer(env, p.signalName, p.deadline.Some?, v)
  }

  /** Where the snapshot is parked at a wait, acting on the wait's end is faithful too. */
  ghost predicate PositionGoodNode(
      env: Env, c: Cont, x: Bytes, last: bool, base: Recorded, p: Position, done: Recorded) {
    && (p.AtDelay? && p.nextTaskId.None? ==>
          last && p.delayId in done && EvalNode(env, ByNodeId, done, c, x).out == Done(done[p.delayId]))
    && (p.AtSignal? ==> p.signalId !in done && forall v :: Admits(env, p, v) ==>
          AnsweredNode(env, c, x, last, base, p.nextTaskId.None?, With(done, p.signalId, v), v))
  }

  /** The signal the node was parked at has been answered with `v`; `ends` if nothing follows the wait. */
  ghost predicate AnsweredNode(
      env: Env, c: Cont, x: Bytes, last: bool, base: Recorded, ends: bool, done: Recorded, v: Bytes) {
    && Extends(base, done, NodeOwned(c)) && AgreeNode(env, c, x, done)
    && (ends ==> last && EvalNode(env, ByNodeId, done, c, x).out == Done(v))
  }

  /** The same for the chain that starts at `c`. */
  ghost predicate Good(env: Env, c: Cont, x: Bytes, top: bool, base: Recorded, s: Snapshot) {
    && Resting(s) && LastRecorded(s)
    && Extends(base, Results(s), Owned(c))
    && Agree(env, c, x, Results(s))
    && (s.state.InProgress? || s.state.Paused? ==>
      PositionGood(env, c, x, top, base, s.state.position, s.state.completed))
  }

  ghost predicate PositionGood(env: Env, c: Cont, x: Bytes, top: bool, base: Recorded, p: Position, done: Recorded) {
    && (p.AtDelay? && p.nextTaskId.None? ==>
          top && p.delayId in done && Eval(env, ByNodeId, done, c, x).out == Done(done[p.delayId]))
    && (p.AtSignal? ==> p.signalId !in done && forall v :: Admits(env, p, v) ==>
          Answered(env, c, x, top, base, p.nextTaskId.None?, With(done, p.signalId, v), v))
  }

  ghost predicate Answered(
      env: Env, c: Cont, x: Bytes, top: bool, base: Recorded, ends: bool, done: Recorded, v: Bytes) {
    && Extends(base, done, Owned(c)) && Agree(env, c, x, done)
    && (ends ==> top && Eval(env, ByNodeId, done, c, x).out == Done(v))
  }

  /** `t'` continues `t`, and the calls it adds are all in `allowed`. */
  ghost predicate Adds(t: seq<Event>, t': seq<Event>, allowed: iset<Call>) {
    && t <= t'
    && forall i :: |t| <= i < |t'| && t'[i].Called? ==> Call(t'[i].id, t'[i].input) in allowed
  }

  lemma AddsTrans(a: seq<Event>, b: seq<Event>, c: seq<Event>, d1: iset<Call>, d2: iset<Call>, d: iset<Call>)
    requires Adds(a, b, d1) && Adds(b, c, d2) && d1 <= d && d2 <= d
    ensures Adds(a, c, d)
  {
    forall i | |a| <= i < |c| && c[i].Called? ensures Call(c[i].id, c[i].input) in d {
      if i < |b| {
        assert b[i] == c[i];
      }
    }
  }

  /** Memory and store coincide, and the position is not one a resume would act on. */
  ghost predicate Live(w: World) {
    && w.snap.state.InProgress? && w.saved == w.snap
    && Neutral(w.snap.state.position) && LastRecorded(w.snap)
  }

  /** What running the node `c` on `x` does to a live world. */
  ghost predicate RanNode(env: Env, c: Cont, x: Bytes, last: bool, w: World, r: ExecResult, w': World) {
    var base, done := Results(w.snap), Results(w'.snap);
    && w'.snap.state.InProgress? && Extends(base, done, NodeOwned(c)) && AgreeNode(env, c, x, done)
    && GoodNode(env, c, x, last, base, w'.saved)
    && w'.snap.initialInput == w.snap.initialInput && w'.saved.initialInput == w.snap.initialInput
    && Adds(w.trace, w'.trace, DemandNode(env, Results(w'.saved), c, x))
    && (r.Ok? ==> Live(w') && Finished(c, done) && EvalNode(env, ByNodeId, done, c, x).out == Done(r.value))
    && (r.Err? && r.error.Waiting? && !last ==> Live(w'))
    && (r.Err? && r.error.Raised? ==> Live(w') && !EvalNode(env, ByNodeId, done, c, x).out.Done?)
  }

  /** The same for the chain that starts at `c`. */
  ghost predicate Ran(env: Env, c: Cont, x: Bytes, top: bool, w: World, r: ExecResult, w': World) {
    var base, done := Results(w.snap), Results(w'.snap);
    && w'.snap.state.InProgress? && Extends(base, done, Owned(c)) && Agree(env, c, x, done)
    && Good(env, c, x, top, base, w'.saved)
    && w'.snap.initialInput == w.snap.initialInput && w'.saved.initialInput == w.snap.initialInput
    && Adds(w.trace, w'.trace, Demand(env, Results(w'.saved), c, x))
    && (r.Ok? ==> Live(w') && Finished(c, done) && Eval(env, ByNodeId, done, c, x).out == Done(r.value))
    && (r.Err? && r.error.Waiting? && !top ==> Live(w'))
    && (r.Err? && r.error.Raised? ==> Live(w') && !Eval(env, ByNodeId, done, c, x).out.Done?)
  }

  // ----- lifting node facts to chain facts -----

  /** A good snapshot of the first node is a good snapshot of the chain. */
  lemma GoodLift(env: Env, c: Cont, x: Bytes, top: bool, base: Recorded, s: Snapshot)
    requires Distinct(c) && Agree(env, c, x, base)
    requires GoodNode(env, c, x, top && Next(c).None?, base, s)
    ensures Good(env, c, x, top, base, s)
  {
    AgreeLift(env, c, x, base, Results(s));
    if s.state.InProgress? || s.state.Paused? {
      PositionLift(env, c, x, top, base, s.state.position, s.state.completed);
    }
  }

  lemma PositionLift(env: Env, c: Cont, x: Bytes, top: bool, base: Recorded, p: Position, done: Recorded)
    requires Distinct(c) && Agree(env, c, x, base)
    requires PositionGoodNode(env, c, x, top && Next(c).None?, base, p, done)
    ensures PositionGood(env, c, x, top, base, p, done)
  {
    if p.AtSignal? {
      forall v | Admits(env, p, v)
        ensures Answered(env, c, x, top, base, p.nextTaskId.None?, With(done, p.signalId, v), v)
      {
        assert AnsweredNode(env, c, x, top && Next(c).None?, base, p.nextTaskId.None?, With(done, p.signalId, v), v);
        AgreeLift(env, c, x, base, With(done, p.signalId, v));
      }
    }
  }

  /** A good snapshot of the successor is a good snapshot of the chain. */
  lemma GoodStep(env: Env, c: Cont, x: Bytes, top: bool, base: Recorded, mid: Recorded, s: Snapshot)
    requires Distinct(c) && Next(c).Some?
    requires Extends(base, mid, NodeOwned(c)) && AgreeNode(env, c, x, mid) && Finished(c, mid)
    requires EvalNode(env, ByNodeId, mid, c, x).out.Done?
    requires Good(env, Next(c).value, EvalNode(env, ByNodeId, mid, c, x).out.value, top, mid, s)
    ensures Good(env, c, x, top, base, s)
  {
    ExtendsTrans(base, mid, Results(s), NodeOwned(c), Owned(Next(c).value), Owned(c));
    AgreeStep(env, c, x, mid, Results(s));
    if s.state.InProgress? || s.state.Paused? {
      PositionStep(env, c, x, top, base, mid, s.state.position, s.state.completed);
    }
  }

  lemma PositionStep(env: Env, c: Cont, x: Bytes, top: bool, base: Recorded, mid: Recorded, p: Position, done: Recorded)
    requires Distinct(c) && Next(c).Some?
    requires Extends(base, mid, NodeOwned(c)) && AgreeNode(env, c, x, mid) && Finished(c, mid)
    requires EvalNode(env, ByNodeId, mid, c, x).out.Done?
    requires EvalNode(env, ByNodeId, done, c, x) == EvalNode(env, ByNodeId, mid, c, x)
    requires PositionGood(env, Next(c).value, EvalNode(env, ByNodeId, mid, c, x).out.value, top, mid, p, done)
    ensures PositionGood(env, c, x, top, base, p, done)
  {
    var n := Next(c).value;
    if p.AtSignal? {
      forall v | Admits(env, p, v)
        ensures Answered(env, c, x, top, base, p.nextTaskId.None?, With(done, p.signalId, v), v)
      {
        var d := With(done, p.signalId, v);
        assert Answered(env, n, EvalNode(env, ByNodeId, mid, c, x).out.value, top, mid, p.nextTaskId.None?, d, v);
        ExtendsTrans(base, mid, d, NodeOwned(c), Owned(n), Owned(c));
        AgreeStep(env, c, x, mid, d);
      }
    }
  }

  lemma {:induction false} RunChain(env: Env, o: Oracle, c: Cont, x: Bytes, top: bool, w: World)
    requires Honest(env, o) && Distinct(c) && Resumable(c, top) && Live(w) && Agree(env, c, x, Results(w.snap))
    ensures var (r, w') := Exec(env, o, c, x, w); Ran(env, c, x, top, w, r, w')
    decreases c, 3
  {
    hide Live, Ran, RanNode, AgreeNode, EvalNode, ExecNode, NodeIds, ResumableNode, DistinctNode, Eval;
    RunNode(env, o, c, x, top, w);
    var (r, w1) := ExecNode(env, o, c, x, w);
    if r.Ok? && Next(c).Some? {
      var n := Next(c).value;
      ChainGoesOn(env, c, x, top, w, r, w1);
      RunChain(env, o, n, r.value, top, w1);
      var (r', w2) := Exec(env, o, n, r.value, w1);
      ChainSteps(env, c, x, top, w, r, w1, r', w2);
    } else {
      ChainStops(env, c, x, top, w, r, w1);
    }
  }

  /** The node finished and its successor may run. */
  lemma ChainGoesOn(env: Env, c: Cont, x: Bytes, top: bool, w: World, r: ExecResult, w1: World)
    requires Distinct(c) && Next(c).Some? && Agree(env, c, x, Results(w.snap)) && r.Ok?
    requires RanNode(env, c, x, top && Next(c).None?, w, r, w1)
    ensures Live(w1) && Agree(env, Next(c).value, r.value, Results(w1.snap))
  {
    AgreeLift(env, c, x, Results(w.snap), Results(w1.snap));
  }

  /** The node ended the chain, or the attempt. */
  lemma ChainStops(env: Env, c: Cont, x: Bytes, top: bool, w: World, r: ExecResult, w1: World)
    requires Distinct(c) && Agree(env, c, x, Results(w.snap)) && (r.Err? || Next(c).None?)
    requires RanNode(env, c, x, top && Next(c).None?, w, r, w1)
    ensures Ran(env, c, x, top, w, r, w1)
  {
    GoodLift(env, c, x, top, Results(w.snap), w1.saved);
    AgreeLift(env, c, x, Results(w.snap), Results(w1.snap));
    EvalNodeDemand(env, c, x, Results(w1.saved), Results(w1.saved));
    var out := EvalNode(env, ByNodeId, Results(w1.snap), c, x).out;
    assert !out.Done? || Next(c).None? ==> Eval(env, ByNodeId, Results(w1.snap), c, x).out == out;
    hide Agree, AgreeNode, Eval, EvalNode, Demand, DemandNode, Good, GoodNode, NodeIds, Ids;
  }

  /** The node finished and its successor has run. */
  lemma ChainSteps(
      env: Env, c: Cont, x: Bytes, top: bool, w: World, r: ExecResult, w1: World, r': ExecResult, w2: World)
    requires Distinct(c) && Next(c).Some? && Agree(env, c, x, Results(w.snap)) && r.Ok?
    requires RanNode(env, c, x, top && Next(c).None?, w, r, w1) && Ran(env, Next(c).value, r.value, top, w1, r', w2)
    ensures Ran(env, c, x, top, w, r', w2)
  {
    var n, base, mid := Next(c).value, Results(w.snap), Results(w1.snap);
    ExtendsTrans(base, mid, Results(w2.snap), NodeOwned(c), Owned(n), Owned(c));
    AgreeStep(env, c, x, mid, Results(w2.snap));
    GoodStep(env, c, x, top, base, mid, w2.saved);
    AgreeStep(env, c, x, mid, Results(w2.saved));
    EvalNodeDemand(env, c, x, mid, Results(w2.saved));
    assert Demand(env, Results(w2.saved), n, r.value) <= Demand(env, Results(w2.saved), c, x);
    assert Eval(env, ByNodeId, Results(w2.snap), c, x).out == Eval(env, ByNodeId, Results(w2.snap), n, r.value).out;
    assert SameOn(mid, Results(w2.snap), NodeIds(c));
    FinishedSame(c, mid, Results(w2.snap));
    hide Agree, AgreeNode, Eval, EvalNode, Demand, DemandNode, Good, GoodNode, NodeIds, Ids;
    AddsTrans(w.trace, w1.trace, w2.trace, DemandNode(env, mid, c, x), Demand(env, Results(w2.saved), n, r.value),
              Demand(env, Results(w2.saved), c, x));
  }

  lemma EvalNodeDemand(env: Env, c: Cont, x: Bytes, a: Recorded, b: Recorded)
    requires Grows(a, b)
    ensures DemandNode(env, a, c, x) <= Demand(env, b, c, x)
  {
    DemandNodeGrows(env, c, x, a, b);
  }

  // ----- single operations -----

  lemma AddsSaved(t: seq<Event>, t': seq<Event>, allowed: iset<Call>, s: Snapshot)
    requires Adds(t, t', allowed)
    ensures Adds(t, t' + [Saved(s)], allowed)
  {
    forall i | |t| <= i < |t' + [Saved(s)]| && (t' + [Saved(s)])[i].Called?
      ensures var e := (t' + [Saved(s)])[i]; Call(e.id, e.input) in allowed
    {
      assert i < |t'|;
    }
  }

  /** Pausing or cancelling keeps a snapshot good. */
  lemma GoodHalted(env: Env, c: Cont, x: Bytes, last: bool, base: Recorded, s: Snapshot, scope: Option<string>)
    requires s.state.InProgress? && GoodNode(env, c, x, last, base, s)
    ensures GoodNode(env, c, x, last, base, MarkPaused(s)) && GoodNode(env, c, x, last, base, MarkCancelled(s, scope))
  {
    hide AgreeNode, NodeOwned, PositionGoodNode, Extends;
  }

  /** A guard either passes and changes nothing, or halts the attempt, perhaps marking the stored snapshot. */
  lemma GuardEffect(o: Oracle, scope: Option<string>, w: World)
    ensures
      var (g, w') := Guard(o, scope, w);
      && w'.snap == w.snap
      && (g.None? ==> w' == w.(tick := w.tick + 1))
      && (g.Some? ==> !g.value.Waiting? && !g.value.Raised?)
      && (|| (w'.saved == w.saved && w'.trace == w.trace)
          || (w.saved.state.InProgress? && w'.saved in {MarkPaused(w.saved), MarkCancelled(w.saved, scope)}
              && w'.trace == w.trace + [Saved(w'.saved)]))
  {
  }

  /** A passing guard changes nothing; otherwise the attempt ends with what had been saved. */
  lemma GuardRan(env: Env, o: Oracle, scope: Option<string>, c: Cont, x: Bytes, last: bool, w: World, w1: World)
    requires Live(w1) && GoodNode(env, c, x, last, Results(w.snap), w1.snap)
    requires w1.snap.initialInput == w.snap.initialInput
    requires Adds(w.trace, w1.trace, DemandNode(env, Results(w1.saved), c, x))
    ensures
      var (g, w2) := Guard(o, scope, w1);
      && (g.None? ==> w2 == w1.(tick := w1.tick + 1))
      && (g.Some? ==> RanNode(env, c, x, last, w, Err(g.value), w2))
  {
    hide AgreeNode, EvalNode, DemandNode, NodeOwned, PositionGoodNode, Extends, Adds, Guard;
    GuardEffect(o, scope, w1);
    var (g, w2) := Guard(o, scope, w1);
    GoodHalted(env, c, x, last, Results(w.snap), w1.snap, scope);
    AddsSaved(w.trace, w1.trace, DemandNode(env, Results(w1.saved), c, x), w2.saved);
  }

  /** The guard at the start of a node. */
  lemma EntryGuard(env: Env, o: Oracle, scope: Option<string>, c: Cont, x: Bytes, last: bool, w: World)
    requires Live(w) && AgreeNode(env, c, x, Results(w.snap))
    ensures
      var (g, w1) := Guard(o, scope, w);
      && (g.None? ==> w1 == w.(tick := w.tick + 1))
      && (g.Some? ==> RanNode(env, c, x, last, w, Err(g.value), w1))
  {
    GuardRan(env, o, scope, c, x, last, w, w);
  }

  /** The world of a node's run just before it saves: memory is ahead of the store, both are good. */
  ghost predicate Ahead(env: Env, c: Cont, x: Bytes, last: bool, w: World, w': World) {
    && w'.snap.state.InProgress?
    && GoodNode(env, c, x, last, Results(w.snap), w'.saved) && GoodNode(env, c, x, last, Results(w.snap), w'.snap)
    && Grows(Results(w'.saved), Results(w'.snap))
    && w'.snap.initialInput == w.snap.initialInput && w'.saved.initialInput == w.snap.initialInput
    && Adds(w.trace, w'.trace, DemandNode(env, Results(w'.saved), c, x))
  }

  /** Saving a good snapshot: it reaches the store, or the attempt ends with a good store. */
  lemma SaveRan(env: Env, o: Oracle, c: Cont, x: Bytes, last: bool, w: World, w1: World)
    requires Ahead(env, c, x, last, w, w1)
    ensures
      var (s, w2) := Checkpoint(o, w1);
      && w2.snap == w1.snap && (s.None? ==> w2.saved == w1.snap)
      && GoodNode(env, c, x, last, Results(w.snap), w2.saved)
      && w2.saved.initialInput == w.snap.initialInput
      && Adds(w.trace, w2.trace, DemandNode(env, Results(w2.saved), c, x))
      && (s.Some? ==> RanNode(env, c, x, last, w, Err(s.value), w2))
  {
    hide AgreeNode, EvalNode, DemandNode, NodeOwned, PositionGoodNode;
    DemandNodeGrows(env, c, x, Results(w1.saved), Results(w1.snap));
  }

  // ----- tasks and waits -----

  /** A node whose result is recorded returns it at once. */
  lemma Recalled(env: Env, c: Cont, x: Bytes, last: bool, w: World, w1: World)
    requires Live(w) && AgreeNode(env, c, x, Results(w.snap)) && !c.Fork? && c.id in Results(w.snap)
    requires w1 == w.(tick := w1.tick)
    ensures RanNode(env, c, x, last, w, Ok(Results(w.snap)[c.id]), w1)
  {
    assert EvalNode(env, ByNodeId, Results(w.snap), c, x).out == Done(Results(w.snap)[c.id]);
    hide AgreeNode, EvalNode, DemandNode, NodeOwned;
  }

  /** The snapshot that records a node's own result is good. */
  lemma MarkGood(env: Env, c: Cont, x: Bytes, last: bool, base: Recorded, s: Snapshot, v: Bytes)
    requires (c.Task? || c.Delay? || c.AwaitSignal?) && c.id !in base
    requires s.state.InProgress? && s.state.completed == base[c.id := v] && s.state.last == Some(c.id)
    requires Neutral(s.state.position) || (last && s.state.position.AtDelay? && s.state.position.delayId == c.id)
    requires c.Task? ==> env.task(c.id, x) == Ok(v)
    requires c.AwaitSignal? ==> MayAnswer(env, c.signalName, c.timeout.Some?, v)
    requires c.Delay? ==> v == x
    ensures GoodNode(env, c, x, last, base, s) && EvalNode(env, ByNodeId, s.state.completed, c, x).out == Done(v)
  {
  }

  /** Recording a task's or a signal's result and saving it. */
  lemma StepRecorded(env: Env, o: Oracle, c: Cont, x: Bytes, last: bool, w: World, w1: World, v: Bytes)
    requires (c.Task? || c.AwaitSignal?) && Live(w) && AgreeNode(env, c, x, Results(w.snap)) && c.id !in Results(w.snap)
    requires w1.snap == w.snap && w1.saved == w.saved && Adds(w.trace, w1.trace, DemandNode(env, Results(w.snap), c, x))
    requires c.Task? ==> env.task(c.id, x) == Ok(v)
    requires c.AwaitSignal? ==> MayAnswer(env, c.signalName, c.timeout.Some?, v)
    ensures
      var (r, w2) := RecordStep(o, c, v, w1);
      && RanNode(env, c, x, last, w, r, w2)
      && (r.Ok? ==> r == Ok(v) && GoodNode(env, c, x, last, Results(w.snap), w2.snap))
  {
    hide AgreeNode, EvalNode, DemandNode, NodeOwned, PositionGoodNode, Extends, Adds, Checkpoint;
    var w2 := Mark(w1, c.id, v);
    var w3 := if Next(c).Some? then MoveTo(w2, AtTask(FirstTaskId(Next(c).value))) else w2;
    MarkGood(env, c, x, last, Results(w.snap), w3.snap, v);
    AheadOf(env, c, x, last, w, w3);
    SaveRan(env, o, c, x, last, w, w3);
    var (s, w4) := Checkpoint(o, w3);
    assert s.None? ==> RanNode(env, c, x, last, w, Ok(v), w4);
  }

  lemma RunTask(env: Env, o: Oracle, c: Cont, x: Bytes, last: bool, w: World)
    requires c.Task? && Live(w) && AgreeNode(env, c, x, Results(w.snap))
    ensures var (r, w') := ExecTask(env, o, c, x, w); RanNode(env, c, x, last, w, r, w')
  {
    hide AgreeNode, EvalNode, DemandNode, NodeOwned, GoodNode, Extends, Adds, Guard, CallTask, RecordStep;
    EntryGuard(env, o, Some(c.id), c, x, last, w);
    var (g, w1) := Guard(o, Some(c.id), w);
    if g.None? {
      if TaskResult(w1.snap, c.id).Some? {
        Recalled(env, c, x, last, w, w1);
      } else {
        TaskCalled(env, o, c, x, last, w, w1);
        var (v, w2) := CallTask(env, o, c.id, x, false, w1);
        if v.Ok? {
          StepRecorded(env, o, c, x, last, w, w2, v.value);
          var (r, w3) := RecordStep(o, c, v.value, w2);
          if r.Ok? {
            GuardRan(env, o, None, c, x, last, w, w3);
            var (g', w4) := Guard(o, None, w3);
            assert g'.None? ==> RanNode(env, c, x, last, w, r, w4);
          }
        }
      }
    }
  }

  lemma TaskCalled(env: Env, o: Oracle, c: Cont, x: Bytes, last: bool, w: World, w1: World)
    requires c.Task? && Live(w) && AgreeNode(env, c, x, Results(w.snap)) && w1 == w.(tick := w1.tick)
    ensures
      var (r, w2) := CallTask(env, o, c.id, x, false, w1);
      && w2.snap == w.snap && w2.saved == w.saved
      && Adds(w.trace, w2.trace, DemandNode(env, Results(w.snap), c, x))
      && (r.Ok? ==> env.task(c.id, x) == Ok(r.value))
      && (r.Err? ==> RanNode(env, c, x, last, w, r, w2))
  {
  }

  /** The store still holds the snapshot the node started with. */
  lemma AheadOf(env: Env, c: Cont, x: Bytes, last: bool, w: World, w1: World)
    requires Live(w) && AgreeNode(env, c, x, Results(w.snap))
    requires w1.saved == w.saved && w1.snap.state.InProgress? && w1.snap.initialInput == w.snap.initialInput
    requires GoodNode(env, c, x, last, Results(w.snap), w1.snap)
    requires Adds(w.trace, w1.trace, DemandNode(env, Results(w.snap), c, x))
    ensures Ahead(env, c, x, last, w, w1)
  {
    hide AgreeNode, EvalNode, DemandNode, NodeOwned, Adds;
  }

  lemma RunDelay(env: Env, o: Oracle, c: Cont, x: Bytes, top: bool, w: World)
    requires c.Delay? && ResumableNode(c, top) && Live(w) && AgreeNode(env, c, x, Results(w.snap))
    ensures var (r, w') := ExecDelay(o, c, x, w); RanNode(env, c, x, top && Next(c).None?, w, r, w')
  {
    var last := top && Next(c).None?;
    assert c.id in Results(w.snap) ==> Results(w.snap)[c.id] == x;
    hide AgreeNode, EvalNode, DemandNode, NodeOwned, GoodNode, Extends, Adds, Guard, ParkAtDelay;
    EntryGuard(env, o, Some(c.id), c, x, last, w);
    var (g, w1) := Guard(o, Some(c.id), w);
    if g.None? {
      if TaskResult(w1.snap, c.id).Some? {
        Recalled(env, c, x, last, w, w1);
      } else {
        DelayParked(env, o, c, x, top, w, w1);
      }
    }
  }

  lemma DelayParked(env: Env, o: Oracle, c: Cont, x: Bytes, top: bool, w: World, w1: World)
    requires c.Delay? && ResumableNode(c, top) && Live(w) && AgreeNode(env, c, x, Results(w.snap))
    requires c.id !in Results(w.snap)
    requires w1 == w.(tick := w1.tick)
    ensures var (r, w2) := ParkAtDelay(o, c, x, w1); RanNode(env, c, x, top && Next(c).None?, w, r, w2)
  {
    hide AgreeNode, EvalNode, DemandNode, NodeOwned, PositionGoodNode, Extends, Checkpoint;
    var last, now := top && Next(c).None?, o.clock(w1.tick);
    var w2 := Mark(MoveTo(w1, AtDelay(c.id, now, now + Span(c.duration), SuccessorId(c))), c.id, x);
    MarkGood(env, c, x, last, Results(w.snap), w2.snap, x);
    AheadOf(env, c, x, last, w, w2);
    SaveRan(env, o, c, x, last, w, w2);
    var (s, w3) := Checkpoint(o, w2);
    assert s.None? ==> RanNode(env, c, x, last, w, Err(Waiting(now + Span(c.duration))), w3);
  }

  lemma RunSignal(env: Env, o: Oracle, c: Cont, x: Bytes, top: bool, w: World)
    requires Honest(env, o) && c.AwaitSignal? && ResumableNode(c, top) && Live(w)
    requires AgreeNode(env, c, x, Results(w.snap))
    ensures var (r, w') := ExecSignal(o, c, w); RanNode(env, c, x, top && Next(c).None?, w, r, w')
  {
    hide AgreeNode, EvalNode, DemandNode, NodeOwned, PositionGoodNode, Extends, Guard, RecordStep, ParkAtSignal;
    var last := top && Next(c).None?;
    EntryGuard(env, o, Some(c.id), c, x, last, w);
    var (g, w1) := Guard(o, Some(c.id), w);
    if g.None? {
      if TaskResult(w1.snap, c.id).Some? {
        Recalled(env, c, x, last, w, w1);
      } else {
        GoodStart(env, c, x, last, w);
        var w2 := w1.(tick := w1.tick + 1);
        match o.mail(w1.tick, c.signalName)
        case Delivered(payload) => StepRecorded(env, o, c, x, last, w, w2, payload);
        case NoMail => SignalParks(env, o, c, x, top, w, w2);
        case _ =>
      }
    }
  }

  lemma SignalParks(env: Env, o: Oracle, c: Cont, x: Bytes, top: bool, w: World, w1: World)
    requires c.AwaitSignal? && ResumableNode(c, top) && Live(w) && AgreeNode(env, c, x, Results(w.snap))
    requires c.id !in Results(w.snap)
    requires w1 == w.(tick := w1.tick)
    ensures var (r, w2) := ParkAtSignal(o, c, w1); RanNode(env, c, x, top && Next(c).None?, w, r, w2)
  {
    hide AgreeNode, EvalNode, DemandNode, NodeOwned, PositionGoodNode, Extends, Checkpoint;
    var last := top && Next(c).None?;
    var deadline := if c.timeout.Some? then Some(o.clock(w1.tick) + Span(c.timeout.value)) else None;
    var w2 := MoveTo(w1, AtSignal(c.id, c.signalName, deadline, SuccessorId(c)));
    SignalParked(env, c, x, last, Results(w.snap), w2.snap);
    AheadOf(env, c, x, last, w, w2);
    SaveRan(env, o, c, x, last, w, w2);
  }

  /** The snapshot a node starts with is good. */
  lemma GoodStart(env: Env, c: Cont, x: Bytes, last: bool, w: World)
    requires Live(w) && AgreeNode(env, c, x, Results(w.snap))
    ensures Extends(Results(w.snap), Results(w.snap), NodeOwned(c))
    ensures GoodNode(env, c, x, last, Results(w.snap), w.snap)
  {
    hide AgreeNode, EvalNode, NodeOwned;
  }

  /** Parked at a signal that has not been answered, any answer will be faithful. */
  lemma SignalParked(env: Env, c: Cont, x: Bytes, last: bool, base: Recorded, s: Snapshot)
    requires c.AwaitSignal? && c.id !in base && s.state.InProgress? && s.state.completed == base && LastRecorded(s)
    requires s.state.position.AtSignal? && s.state.position.signalId == c.id
    requires s.state.position.signalName == c.signalName && (s.state.position.deadline.Some? ==> c.timeout.Some?)
    requires s.state.position.nextTaskId.None? ==> last
    ensures GoodNode(env, c, x, last, base, s)
  {
    var p := s.state.position;
    forall v | Admits(env, p, v)
      ensures AnsweredNode(env, c, x, last, base, p.nextTaskId.None?, With(base, c.id, v), v)
    {
    }
  }

  // ----- nested chains -----

  /** `inner` is the chain that the child or branch node `c` runs on `x`. */
  ghost predicate Inner(env: Env, c: Cont, x: Bytes, inner: Cont) {
    || (c.ChildWorkflow? && inner == c.child)
    || (c.Branch? &&
        var k := env.task(KeyFnId(c.id), x);
        k.Ok? && Choose(env, c, k.value).Ok? && Choose(env, c, k.value).value.1 == inner)
  }

  lemma InnerFacts(env: Env, c: Cont, x: Bytes, inner: Cont, top: bool)
    requires Inner(env, c, x, inner) && DistinctNode(c) && ResumableNode(c, top)
    ensures Distinct(inner) && Resumable(inner, false) && c.id !in Ids(inner) && Ids(inner) <= NodeIds(c)
  {
    if c.Branch? {
      RouteIds(c, Choose(env, c, env.task(KeyFnId(c.id), x).value).value.0);
    }
  }

  /** A good snapshot of the nested chain is a good snapshot of the node around it. */
  lemma InnerGood(env: Env, c: Cont, x: Bytes, inner: Cont, top: bool, last: bool, base: Recorded, s: Snapshot)
    requires Inner(env, c, x, inner) && DistinctNode(c) && ResumableNode(c, top) && c.id !in base
    requires Good(env, inner, x, false, base, s)
    ensures GoodNode(env, c, x, last, base, s)
  {
    InnerFacts(env, c, x, inner, top);
    if (s.state.InProgress? || s.state.Paused?) && s.state.position.AtSignal? {
      var p, done := s.state.position, s.state.completed;
      forall v | Admits(env, p, v)
        ensures AnsweredNode(env, c, x, last, base, p.nextTaskId.None?, With(done, p.signalId, v), v)
      {
        assert Answered(env, inner, x, false, base, p.nextTaskId.None?, With(done, p.signalId, v), v);
      }
    }
  }

  /** The node's result depends on the nested chain's. */
  lemma InnerEval(env: Env, c: Cont, x: Bytes, inner: Cont, a: Recorded, b: Recorded)
    requires Inner(env, c, x, inner) && Eval(env, ByNodeId, a, inner, x) == Eval(env, ByNodeId, b, inner, x)
    ensures EvalNode(env, ByNodeId, a, c, x) == EvalNode(env, ByNodeId, b, c, x)
  {
    hide Eval;
  }

  lemma InnerAgree(env: Env, c: Cont, x: Bytes, inner: Cont, done: Recorded)
    requires Inner(env, c, x, inner) && Agree(env, inner, x, done)
    requires c.id in done ==> EvalNode(env, ByNodeId, done, c, x).out == Done(done[c.id])
    ensures AgreeNode(env, c, x, done)
  {
    hide Eval, EvalNode, Agree;
  }

  /** Recording the nested chain's result (enveloped, for a branch) for the node around it. */
  lemma InnerMark(
      env: Env, c: Cont, x: Bytes, inner: Cont, top: bool, last: bool, base: Recorded, done: Recorded, s: Snapshot,
      v: Bytes)
    requires Inner(env, c, x, inner) && DistinctNode(c) && ResumableNode(c, top) && c.id !in base
    requires Extends(base, done, Owned(inner)) && Agree(env, inner, x, done)
    requires EvalNode(env, ByNodeId, done, c, x).out == Done(v)
    requires s.state.InProgress? && s.state.completed == done[c.id := v] && s.state.last == Some(c.id)
    requires Neutral(s.state.position)
    ensures GoodNode(env, c, x, last, base, s) && EvalNode(env, ByNodeId, s.state.completed, c, x).out == Done(v)
  {
    hide Eval, EvalNode, Agree, AgreeNode, Owned, Ids;
    var done' := s.state.completed;
    InnerFacts(env, c, x, inner, top);
    assert SameOn(done, done', Ids(inner));
    AgreeSame(env, inner, x, done, done');
    EvalSame(env, inner, x, done, done');
    InnerEval(env, c, x, inner, done, done');
    InnerAgree(env, c, x, inner, done');
  }

  /** From a finished nested chain to the node's recorded result. */
  lemma InnerRecord(
      env: Env, o: Oracle, c: Cont, x: Bytes, inner: Cont, top: bool, last: bool, w: World, w1: World, r: ExecResult,
      w2: World, v: Bytes)
    requires Inner(env, c, x, inner) && DistinctNode(c) && ResumableNode(c, top) && c.id !in Results(w.snap)
    requires w1.snap == w.snap && Adds(w.trace, w1.trace, DemandNode(env, Results(w1.snap), c, x))
    requires r.Ok? && Ran(env, inner, x, false, w1, r, w2)
    requires EvalNode(env, ByNodeId, Results(w2.snap), c, x).out == Done(v)
    ensures var (r', w3) := Record(o, c.id, v, w2); RanNode(env, c, x, last, w, r', w3)
  {
    hide AgreeNode, EvalNode, Agree, Eval, DemandNode, Demand, NodeOwned, Owned, Ids, PositionGood,
      PositionGoodNode, Adds, Checkpoint;
    var w3 := Mark(w2, c.id, v);
    InnerFacts(env, c, x, inner, top);
    InnerGood(env, c, x, inner, top, last, Results(w.snap), w2.saved);
    InnerMark(env, c, x, inner, top, last, Results(w.snap), Results(w2.snap), w3.snap, v);
    InnerAdds(env, c, x, inner, w, w1, w2);
    assert Grows(Results(w2.saved), Results(w3.snap)) by {
      assert c.id !in Results(w2.saved);
    }
    assert Ahead(env, c, x, last, w, w3);
    SaveRan(env, o, c, x, last, w, w3);
    var (s, w4) := Checkpoint(o, w3);
    assert s.None? ==> RanNode(env, c, x, last, w, Ok(v), w4);
  }

  /** The calls of the nested chain are calls of the node. */
  lemma InnerAdds(env: Env, c: Cont, x: Bytes, inner: Cont, w: World, w1: World, w2: World)
    requires Inner(env, c, x, inner) && w1.snap == w.snap
    requires Adds(w.trace, w1.trace, DemandNode(env, Results(w1.snap), c, x))
    requires Adds(w1.trace, w2.trace, Demand(env, Results(w2.saved), inner, x))
    requires Grows(Results(w1.snap), Results(w2.saved))
    ensures Adds(w.trace, w2.trace, DemandNode(env, Results(w2.saved), c, x))
  {
    DemandNodeGrows(env, c, x, Results(w1.snap), Results(w2.saved));
    AddsTrans(w.trace, w1.trace, w2.trace, DemandNode(env, Results(w1.snap), c, x),
      Demand(env, Results(w2.saved), inner, x),
      DemandNode(env, Results(w2.saved), c, x));
  }

  /** The nested chain stopped the attempt. */
  lemma InnerStopped(
      env: Env, c: Cont, x: Bytes, inner: Cont, top: bool, last: bool, w: World, w1: World, r: ExecResult, w2: World)
    requires Inner(env, c, x, inner) && DistinctNode(c) && ResumableNode(c, top) && c.id !in Results(w.snap)
    requires w1.snap == w.snap && Adds(w.trace, w1.trace, DemandNode(env, Results(w1.snap), c, x))
    requires r.Err? && Ran(env, inner, x, false, w1, r, w2)
    ensures RanNode(env, c, x, last, w, r, w2)
  {
    InnerFacts(env, c, x, inner, top);
    InnerGood(env, c, x, inner, top, last, Results(w.snap), w2.saved);
    InnerAdds(env, c, x, inner, w, w1, w2);
    assert AgreeNode(env, c, x, Results(w2.snap));
    assert r.error.Raised? ==> !EvalNode(env, ByNodeId, Results(w2.snap), c, x).out.Done?;
    hide AgreeNode, EvalNode, Agree, Eval, DemandNode, Demand, PositionGoodNode, PositionGood, Adds;
  }

  lemma {:induction false} RunChild(env: Env, o: Oracle, c: Cont, x: Bytes, top: bool, last: bool, w: World)
    requires Honest(env, o) && c.ChildWorkflow? && DistinctNode(c) && ResumableNode(c, top) && Live(w)
    requires AgreeNode(env, c, x, Results(w.snap))
    ensures var (r, w') := ExecNode(env, o, c, x, w); RanNode(env, c, x, last, w, r, w')
    decreases c, 0
  {
    assert Agree(env, c.child, x, Results(w.snap));
    assert forall done :: EvalNode(env, ByNodeId, done, c, x) == Eval(env, ByNodeId, done, c.child, x);
    hide AgreeNode, EvalNode, Agree, Eval, DemandNode, Demand, Good, GoodNode, Exec, Guard, Record, Adds, Extends,
      Ids, NodeOwned;
    EntryGuard(env, o, Some(c.id), c, x, last, w);
    var (g, w1) := Guard(o, Some(c.id), w);
    if g.None? {
      if TaskResult(w1.snap, c.id).Some? {
        Recalled(env, c, x, last, w, w1);
      } else {
        InnerFacts(env, c, x, c.child, top);
        RunChain(env, o, c.child, x, false, w1);
        var (r, w2) := Exec(env, o, c.child, x, w1);
        AddsNothing(w.trace, DemandNode(env, Results(w1.snap), c, x));
        if r.Err? {
          InnerStopped(env, c, x, c.child, top, last, w, w1, r, w2);
        } else {
          InnerRecord(env, o, c, x, c.child, top, last, w, w1, r, w2, r.value);
        }
      }
    }
  }

  lemma AddsNothing(t: seq<Event>, allowed: iset<Call>)
    ensures Adds(t, t, allowed)
  {
  }

  lemma {:induction false} RunBranch(env: Env, o: Oracle, c: Cont, x: Bytes, top: bool, last: bool, w: World)
    requires Honest(env, o) && c.Branch? && DistinctNode(c) && ResumableNode(c, top) && Live(w)
    requires AgreeNode(env, c, x, Results(w.snap))
    ensures var (r, w') := ExecNode(env, o, c, x, w); RanNode(env, c, x, last, w, r, w')
    decreases c, 0
  {
    hide AgreeNode, EvalNode, Agree, Eval, DemandNode, Demand, Good, GoodNode, Exec, Guard, CallTask, FinishBranch,
      Adds, Extends, Ids, NodeOwned, Choose;
    EntryGuard(env, o, Some(c.id), c, x, last, w);
    var (g, w1) := Guard(o, Some(c.id), w);
    if g.None? {
      if TaskResult(w1.snap, c.id).Some? {
        Recalled(env, c, x, last, w, w1);
      } else {
        KeyCalled(env, o, c, x, last, w, w1);
        var (k, w2) := CallTask(env, o, KeyFnId(c.id), x, true, w1);
        if k.Ok? && Choose(env, c, k.value).Ok? {
          var (key, route) := Choose(env, c, k.value).value;
          RouteAgrees(env, c, x, k.value, Results(w.snap));
          InnerFacts(env, c, x, route, top);
          RunChain(env, o, route, x, false, w2);
          var (r, w3) := Exec(env, o, route, x, w2);
          RouteFinished(env, o, c, x, top, last, w, w2, k.value, r, w3);
        }
      }
    }
  }

  lemma KeyCalled(env: Env, o: Oracle, c: Cont, x: Bytes, last: bool, w: World, w1: World)
    requires c.Branch? && Live(w) && AgreeNode(env, c, x, Results(w.snap)) && w1 == w.(tick := w1.tick)
    ensures
      var (k, w2) := CallTask(env, o, KeyFnId(c.id), x, true, w1);
      && w2.snap == w.snap && w2.saved == w.saved
      && Adds(w.trace, w2.trace, DemandNode(env, Results(w.snap), c, x))
      && (k.Ok? ==> env.task(KeyFnId(c.id), x) == Ok(k.value))
      && (k.Err? ==> RanNode(env, c, x, last, w, k, w2))
      && (k.Ok? && Choose(env, c, k.value).Err? ==>
        RanNode(env, c, x, last, w, Err(Raised(Choose(env, c, k.value).error)), w2))
  {
    GoodStart(env, c, x, last, w);
    var (k, w2) := CallTask(env, o, KeyFnId(c.id), x, true, w1);
    var done := Results(w.snap);
    assert k.Err? && k.error.Raised? ==> !EvalNode(env, ByNodeId, done, c, x).out.Done?;
    assert k.Ok? && Choose(env, c, k.value).Err? ==> !EvalNode(env, ByNodeId, done, c, x).out.Done?;
    assert Call(KeyFnId(c.id), x) in DemandNode(env, done, c, x);
    hide AgreeNode, EvalNode, DemandNode, GoodNode, NodeOwned, Choose;
  }

  lemma RouteAgrees(env: Env, c: Cont, x: Bytes, answer: Bytes, done: Recorded)
    requires c.Branch? && env.task(KeyFnId(c.id), x) == Ok(answer) && Choose(env, c, answer).Ok?
    requires AgreeNode(env, c, x, done)
    ensures Inner(env, c, x, Choose(env, c, answer).value.1) && Agree(env, Choose(env, c, answer).value.1, x, done)
  {
  }

  /** The chosen route has run: wrap and record its result, or pass on what stopped it. */
  lemma RouteFinished(
      env: Env, o: Oracle, c: Cont, x: Bytes, top: bool, last: bool, w: World, w2: World, answer: Bytes,
      r: ExecResult, w3: World)
    requires c.Branch? && env.task(KeyFnId(c.id), x) == Ok(answer) && Choose(env, c, answer).Ok?
    requires DistinctNode(c) && ResumableNode(c, top) && c.id !in Results(w.snap)
    requires w2.snap == w.snap && Adds(w.trace, w2.trace, DemandNode(env, Results(w2.snap), c, x))
    requires Ran(env, Choose(env, c, answer).value.1, x, false, w2, r, w3)
    ensures
      var (f, w4) := FinishBranch(env, o, c.id, Choose(env, c, answer).value.0, r, w3);
      RanNode(env, c, x, last, w, f, w4)
  {
    var (key, route) := Choose(env, c, answer).value;
    if r.Err? {
      InnerStopped(env, c, x, route, top, last, w, w2, r, w3);
    } else {
      var e := env.encodeEnvelope(key, r.value);
      assert EvalNode(env, ByNodeId, Results(w3.snap), c, x).out == FromResult(e);
      if e.Ok? {
        InnerRecord(env, o, c, x, route, top, last, w, w2, r, w3, e.value);
      } else {
        EnvelopeFailed(env, c, x, route, top, last, w, w2, r, w3, e.error);
      }
    }
  }

  lemma EnvelopeFailed(
      env: Env, c: Cont, x: Bytes, inner: Cont, top: bool, last: bool, w: World, w1: World, r: ExecResult, w2: World,
      e: Error)
    requires Inner(env, c, x, inner) && DistinctNode(c) && ResumableNode(c, top) && c.id !in Results(w.snap)
    requires w1.snap == w.snap && Adds(w.trace, w1.trace, DemandNode(env, Results(w1.snap), c, x))
    requires r.Ok? && Ran(env, inner, x, false, w1, r, w2)
    requires EvalNode(env, ByNodeId, Results(w2.snap), c, x).out == Semantics.Failed(e)
    ensures RanNode(env, c, x, last, w, Err(Raised(e)), w2)
  {
    hide AgreeNode, EvalNode, Agree, Eval, DemandNode, Demand, NodeOwned, Owned, Ids, PositionGood,
      PositionGoodNode, Adds;
    InnerFacts(env, c, x, inner, top);
    InnerGood(env, c, x, inner, top, last, Results(w.snap), w2.saved);
    InnerAdds(env, c, x, inner, w, w1, w2);
  }

  // ----- forks -----

  lemma {:induction false} BranchesApart(branches: seq<Cont>, a: Cont, b: Cont)
    requires DistinctBranches(branches) && a in branches && b in branches && a != b
    ensures Ids(a) !! Ids(b)
    decreases branches
  {
    if a == branches[0] {
      BranchIdsAt(branches[1..], b);
    } else if b == branches[0] {
      BranchIdsAt(branches[1..], a);
    } else {
      BranchesApart(branches[1..], a, b);
    }
  }

  lemma {:induction false} BranchDistinct(branches: seq<Cont>, b: Cont)
    requires DistinctBranches(branches) && b in branches
    ensures Distinct(b) && (b.Fork? ==> b.id !in Owned(b))
    decreases branches
  {
    if b == branches[0] {
      assert b.id in NodeIds(b);
    } else {
      BranchDistinct(branches[1..], b);
    }
  }

  /** A branch of a fork is recorded under its id only with the result of its whole chain. */
  lemma BranchRecorded(env: Env, c: Cont, b: Cont, x: Bytes, top: bool, a: Recorded, done: Recorded)
    requires c.Fork? && DistinctNode(c) && ResumableNode(c, top) && b in c.branches
    requires b.id !in a && Extends(a, done, Owned(b)) && Agree(env, b, x, done)
    ensures AgreeBranch(env, b, x, done)
  {
    BranchDistinct(c.branches, b);
    if b.id in done {
      assert !b.Fork? && Next(b).None?;
      assert Eval(env, ByNodeId, done, b, x) == EvalNode(env, ByNodeId, done, b, x);
    }
  }

  /** Progress in one branch keeps the agreement of the fork. */
  lemma ForkAgrees(env: Env, c: Cont, b: Cont, x: Bytes, a: Recorded, done: Recorded)
    requires c.Fork? && DistinctNode(c) && b in c.branches
    requires AgreeNode(env, c, x, a) && Extends(a, done, Ids(b)) && AgreeBranch(env, b, x, done)
    ensures AgreeNode(env, c, x, done)
  {
    hide Agree, Eval, EvalNode, Ids, AgreeBranch;
    forall br | br in c.branches ensures AgreeBranch(env, br, x, done) {
      if br != b {
        BranchesApart(c.branches, br, b);
        assert SameOn(a, done, Ids(br));
        AgreeBranchSame(env, br, x, a, done);
      }
    }
  }

  /** A good snapshot of a branch is a good snapshot of the fork. */
  lemma BranchGood(
      env: Env, c: Cont, b: Cont, x: Bytes, top: bool, last: bool, base: Recorded, a: Recorded, s: Snapshot)
    requires c.Fork? && DistinctNode(c) && ResumableNode(c, top) && b in c.branches && b.id !in a
    requires Extends(base, a, NodeOwned(c)) && AgreeNode(env, c, x, a) && Good(env, b, x, false, a, s)
    ensures GoodNode(env, c, x, last, base, s)
  {
    hide Agree, AgreeNode, Eval, EvalNode, Ids, Owned, AgreeBranch;
    BranchExtends(env, c, b, x, top, base, a, Results(s));
    if (s.state.InProgress? || s.state.Paused?) && s.state.position.AtSignal? {
      var p, done := s.state.position, s.state.completed;
      forall v | Admits(env, p, v)
        ensures AnsweredNode(env, c, x, last, base, p.nextTaskId.None?, With(done, p.signalId, v), v)
      {
        assert Answered(env, b, x, false, a, p.nextTaskId.None?, With(done, p.signalId, v), v);
        BranchExtends(env, c, b, x, top, base, a, With(done, p.signalId, v));
      }
    }
  }

  lemma BranchExtends(env: Env, c: Cont, b: Cont, x: Bytes, top: bool, base: Recorded, a: Recorded, done: Recorded)
    requires c.Fork? && DistinctNode(c) && ResumableNode(c, top) && b in c.branches && b.id !in a
    requires Extends(base, a, NodeOwned(c)) && AgreeNode(env, c, x, a)
    requires Extends(a, done, Owned(b)) && Agree(env, b, x, done)
    ensures Extends(base, done, NodeOwned(c)) && AgreeNode(env, c, x, done)
  {
    hide Agree, AgreeNode, Eval, EvalNode, AgreeBranch, Ids, Owned;
    BranchIdsAt(c.branches, b);
    BranchRecorded(env, c, b, x, top, a, done);
    ForkAgrees(env, c, b, x, a, done);
    ExtendsTrans(base, a, done, NodeOwned(c), Ids(b), NodeOwned(c));
  }

  /** The branches before `i` are recorded, with `results`. */
  predicate Gotten(branches: seq<Cont>, i: nat, done: Recorded, results: seq<(string, Bytes)>) {
    |results| == i <= |branches| &&
    forall j :: 0 <= j < i ==> branches[j].id in done && results[j] == (branches[j].id, done[branches[j].id])
  }

  /** A fork in progress: everything done so far is saved and good. */
  ghost predicate Forking(env: Env, c: Cont, x: Bytes, last: bool, w: World, w1: World) {
    && Live(w1) && GoodNode(env, c, x, last, Results(w.snap), w1.snap)
    && w1.snap.initialInput == w.snap.initialInput
    && Adds(w.trace, w1.trace, DemandNode(env, Results(w1.saved), c, x))
  }

  lemma {:induction false} RunBranches(env: Env, o: Oracle, c: Cont, x: Bytes, top: bool, last: bool, w: World,
                                       i: nat, results: seq<(string, Bytes)>, wake: Option<int>, w1: World)
    requires Honest(env, o) && c.Fork? && DistinctNode(c) && ResumableNode(c, top) && i <= |c.branches|
    requires Forking(env, c, x, last, w, w1) && (wake.None? ==> Gotten(c.branches, i, Results(w1.snap), results))
    ensures
      var (r, w2) := ExecBranches(env, o, c.branches[i..], x, results, wake, w1);
      && (r.Err? ==> RanNode(env, c, x, last, w, Err(r.error), w2))
      && (r.Ok? ==> Forking(env, c, x, last, w, w2))
      && (r.Ok? && r.value.1.None? ==> Gotten(c.branches, |c.branches|, Results(w2.snap), r.value.0))
    decreases c, 0, |c.branches| - i
  {
    if i < |c.branches| {
      var b := c.branches[i];
      assert c.branches[i..][0] == b && c.branches[i..][1..] == c.branches[i + 1..];
      hide Agree, AgreeNode, Eval, EvalNode, AgreeBranch, Ids, Owned, NodeOwned, Exec, Record, DemandNode, Forking,
        RanNode, Distinct, DistinctNode, ResumableNode;
      if TaskResult(w1.snap, b.id).Some? {
        RunBranches(env, o, c, x, top, last, w, i + 1, results + [(b.id, TaskResult(w1.snap, b.id).value)], wake, w1);
      } else {
        RunOneBranch(env, o, c, b, x, top, last, w, w1);
        var (r, w2) := Exec(env, o, b, x, w1);
        if r.Ok? {
          var (s, w3) := Record(o, b.id, r.value, w2);
          if s.Ok? {
            RunBranches(env, o, c, x, top, last, w, i + 1, results + [(b.id, r.value)], wake, w3);
          }
        } else if r.error.Waiting? {
          RunBranches(env, o, c, x, top, last, w, i + 1, results, Later(wake, r.error.wakeAt), w2);
        }
      }
    }
  }

  /** One branch that is not recorded yet. */
  lemma {:induction false} RunOneBranch(
      env: Env, o: Oracle, c: Cont, b: Cont, x: Bytes, top: bool, last: bool, w: World, w1: World)
    requires Honest(env, o) && c.Fork? && DistinctNode(c) && ResumableNode(c, top) && b in c.branches
    requires Forking(env, c, x, last, w, w1) && b.id !in Results(w1.snap)
    ensures
      var (r, w2) := Exec(env, o, b, x, w1);
      && (r.Err? && r.error.Waiting? ==> Forking(env, c, x, last, w, w2) && Grows(Results(w1.snap), Results(w2.snap)))
      && (r.Err? && !r.error.Waiting? ==> RanNode(env, c, x, last, w, r, w2))
      && (r.Ok? ==>
            var (s, w3) := Record(o, b.id, r.value, w2);
            && (s.Err? ==> RanNode(env, c, x, last, w, Err(s.error), w3))
            && (s.Ok? ==> Forking(env, c, x, last, w, w3) && Grows(Results(w1.snap), Results(w3.snap))
                          && TaskResult(w3.snap, b.id) == Some(r.value)))
    decreases b, 4
  {
    BranchDistinct(c.branches, b);
    assert Agree(env, b, x, Results(w1.snap)) by {
      assert AgreeBranch(env, b, x, Results(w1.snap));
    }
    RunChain(env, o, b, x, false, w1);
    var (r, w2) := Exec(env, o, b, x, w1);
    BranchRan(env, o, c, b, x, top, last, w, w1, r, w2);
  }

  /** What a branch's run means for the fork around it. */
  lemma BranchRan(
      env: Env, o: Oracle, c: Cont, b: Cont, x: Bytes, top: bool, last: bool, w: World, w1: World, r: ExecResult,
      w2: World)
    requires c.Fork? && DistinctNode(c) && ResumableNode(c, top) && b in c.branches
    requires Forking(env, c, x, last, w, w1) && b.id !in Results(w1.snap)
    requires Ran(env, b, x, false, w1, r, w2)
    ensures
      && (r.Err? && r.error.Waiting? ==> Forking(env, c, x, last, w, w2) && Grows(Results(w1.snap), Results(w2.snap)))
      && (r.Err? && !r.error.Waiting? ==> RanNode(env, c, x, last, w, r, w2))
      && (r.Ok? ==>
            var (s, w3) := Record(o, b.id, r.value, w2);
            && (s.Err? ==> RanNode(env, c, x, last, w, Err(s.error), w3))
            && (s.Ok? ==> Forking(env, c, x, last, w, w3) && Grows(Results(w1.snap), Results(w3.snap))
                          && TaskResult(w3.snap, b.id) == Some(r.value)))
  {
    hide Agree, AgreeNode, Eval, EvalNode, AgreeBranch, Ids, Owned, NodeOwned, DemandNode, Demand, Distinct,
      DistinctNode, ResumableNode, PositionGood, PositionGoodNode, Adds, Record;
    var base := Results(w.snap);
    BranchGood(env, c, b, x, top, last, base, Results(w1.snap), w2.saved);
    BranchExtends(env, c, b, x, top, base, Results(w1.snap), Results(w2.snap));
    BranchAdds(env, c, b, x, w, w1, w2);
    if r.Err? && r.error.Raised? {
      ForkNotDone(env, c, b, x, Results(w2.snap));
    } else if r.Ok? {
      BranchSaved(env, o, c, b, x, top, last, w, w1, r, w2);
    }
  }

  lemma BranchAdds(env: Env, c: Cont, b: Cont, x: Bytes, w: World, w1: World, w2: World)
    requires c.Fork? && b in c.branches && Adds(w.trace, w1.trace, DemandNode(env, Results(w1.saved), c, x))
    requires Adds(w1.trace, w2.trace, Demand(env, Results(w2.saved), b, x))
    requires Grows(Results(w1.saved), Results(w2.saved))
    ensures Adds(w.trace, w2.trace, DemandNode(env, Results(w2.saved), c, x))
  {
    var d := DemandNode(env, Results(w2.saved), c, x);
    DemandNodeGrows(env, c, x, Results(w1.saved), Results(w2.saved));
    forall call | call in Demand(env, Results(w2.saved), b, x) ensures call in d { }
    AddsTrans(w.trace, w1.trace, w2.trace, DemandNode(env, Results(w1.saved), c, x),
      Demand(env, Results(w2.saved), b, x), d);
  }

  /** A fork has no result unless all its branches have one. */
  lemma ForkNotDone(env: Env, c: Cont, b: Cont, x: Bytes, done: Recorded)
    requires c.Fork? && b in c.branches && !Eval(env, ByNodeId, done, b, x).out.Done?
    ensures !EvalNode(env, ByNodeId, done, c, x).out.Done?
  {
    EvalBranchesStop(env, c.branches, x, done);
    BranchStops(env, c.branches, b, x, done);
  }

  lemma {:induction false} BranchStops(env: Env, branches: seq<Cont>, b: Cont, x: Bytes, done: Recorded)
    requires b in branches && !Eval(env, ByNodeId, done, b, x).out.Done?
    ensures EvalBranches(env, ByNodeId, done, branches, x).stop.Some?
    decreases branches
  {
    if b != branches[0] {
      BranchStops(env, branches[1..], b, x, done);
    }
  }

  /** A finished branch is recorded under its id. */
  lemma BranchSaved(
      env: Env, o: Oracle, c: Cont, b: Cont, x: Bytes, top: bool, last: bool, w: World, w1: World, r: ExecResult,
      w2: World)
    requires c.Fork? && DistinctNode(c) && ResumableNode(c, top) && b in c.branches
    requires Forking(env, c, x, last, w, w1) && b.id !in Results(w1.snap)
    requires r.Ok? && Ran(env, b, x, false, w1, r, w2) && GoodNode(env, c, x, last, Results(w.snap), w2.saved)
    requires Adds(w.trace, w2.trace, DemandNode(env, Results(w2.saved), c, x))
    ensures
      var (s, w3) := Record(o, b.id, r.value, w2);
      && (s.Err? ==> RanNode(env, c, x, last, w, Err(s.error), w3))
      && (s.Ok? ==> Forking(env, c, x, last, w, w3) && Grows(Results(w1.snap), Results(w3.snap))
                    && TaskResult(w3.snap, b.id) == Some(r.value))
  {
    hide Agree, AgreeNode, Eval, EvalNode, AgreeBranch, Ids, Owned, NodeOwned, DemandNode, Demand, Distinct,
      DistinctNode, ResumableNode, PositionGood, PositionGoodNode, Adds, Checkpoint;
    var w3 := Mark(w2, b.id, r.value);
    BranchMark(env, c, b, x, top, last, Results(w.snap), Results(w1.snap), Results(w2.snap), w3.snap, r.value);
    assert Ahead(env, c, x, last, w, w3);
    SaveRan(env, o, c, x, last, w, w3);
    var (s, w4) := Checkpoint(o, w3);
    assert s.None? ==> Forking(env, c, x, last, w, w4);
  }

  lemma BranchMark(
      env: Env, c: Cont, b: Cont, x: Bytes, top: bool, last: bool, base: Recorded, a: Recorded, done: Recorded,
      s: Snapshot, v: Bytes)
    requires c.Fork? && DistinctNode(c) && ResumableNode(c, top) && b in c.branches && b.id !in a
    requires Extends(base, a, NodeOwned(c)) && AgreeNode(env, c, x, a)
    requires Extends(a, done, Owned(b)) && Agree(env, b, x, done) && Finished(b, done)
    requires Eval(env, ByNodeId, done, b, x).out == Done(v)
    requires s.state.InProgress? && s.state.completed == done[b.id := v] && s.state.last == Some(b.id)
    requires Neutral(s.state.position)
    ensures GoodNode(env, c, x, last, base, s) && Grows(done, s.state.completed)
  {
    BranchDistinct(c.branches, b);
    BranchRecorded(env, c, b, x, top, a, done);
    BranchIdsAt(c.branches, b);
    assert b.id in Ids(b) && (b.id in done ==> done[b.id] == v);
    hide Agree, AgreeNode, Eval, EvalNode, Ids, Owned, Distinct, DistinctNode, ResumableNode, Finished, NodeOwned;
    var done' := s.state.completed;
    assert SameOn(done, done', Owned(b));
    AgreeSame(env, b, x, done, done');
    EvalSame(env, b, x, done, done');
    ForkAgrees(env, c, b, x, a, done');
    ExtendsTrans(base, a, done', NodeOwned(c), Ids(b), NodeOwned(c));
  }

  /** All branches are recorded: the fork's result is the encoding of what they returned. */
  lemma {:induction false} ForkDone(
      env: Env, branches: seq<Cont>, x: Bytes, done: Recorded, results: seq<(string, Bytes)>)
    requires Gotten(branches, |branches|, done, results)
    requires forall b :: b in branches ==> AgreeBranch(env, b, x, done)
    ensures var g := EvalBranches(env, ByNodeId, done, branches, x); g.stop.None? && g.results == results
    decreases branches
  {
    hide Agree, Eval;
    if branches != [] {
      var b := branches[0];
      assert AgreeBranch(env, b, x, done);
      ForkDone(env, branches[1..], x, done, results[1..]);
      assert results == [results[0]] + results[1..];
    }
  }

  lemma {:induction false} RunFork(env: Env, o: Oracle, c: Cont, x: Bytes, top: bool, last: bool, w: World)
    requires Honest(env, o) && c.Fork? && DistinctNode(c) && ResumableNode(c, top) && Live(w)
    requires AgreeNode(env, c, x, Results(w.snap))
    ensures var (r, w') := ExecNode(env, o, c, x, w); RanNode(env, c, x, last, w, r, w')
    decreases c, 1
  {
    hide AgreeNode, EvalNode, DemandNode, ExecBranches, FinishFork, Guard, NodeOwned, Adds, DistinctNode,
      ResumableNode, RanNode;
    EntryGuard(env, o, None, c, x, last, w);
    var (g, w1) := Guard(o, None, w);
    if g.None? {
      GoodStart(env, c, x, last, w);
      AddsNothing(w.trace, DemandNode(env, Results(w.snap), c, x));
      RunBranches(env, o, c, x, top, last, w, 0, [], None, w1);
      assert c.branches[0..] == c.branches;
      var (r, w2) := ExecBranches(env, o, c.branches, x, [], None, w1);
      if r.Ok? {
        ForkFinished(env, o, c, x, last, w, r.value.0, r.value.1, w2);
      }
    }
  }

  lemma ForkFinished(
      env: Env, o: Oracle, c: Cont, x: Bytes, last: bool, w: World, results: seq<(string, Bytes)>, wake: Option<int>,
      w2: World)
    requires c.Fork? && Forking(env, c, x, last, w, w2)
    requires wake.None? ==> Gotten(c.branches, |c.branches|, Results(w2.snap), results)
    ensures var (r, w3) := FinishFork(env, o, c, results, wake, w2); RanNode(env, c, x, last, w, r, w3)
  {
    if wake.Some? {
      ForkParked(env, o, c, x, last, w, results, wake.value, w2);
    } else {
      var done := Results(w2.snap);
      ForkDone(env, c.branches, x, done, results);
      assert EvalNode(env, ByNodeId, done, c, x).out == FromResult(env.encodeNamed(results));
      assert Finished(c, done) by {
        forall b | b in c.branches ensures b.id in done {
          var j :| 0 <= j < |c.branches| && c.branches[j] == b;
        }
      }
      hide AgreeNode, EvalNode, DemandNode, NodeOwned, PositionGoodNode, Adds, Finished;
    }
  }

  lemma ForkParked(
      env: Env, o: Oracle, c: Cont, x: Bytes, last: bool, w: World, results: seq<(string, Bytes)>, wakeAt: int,
      w2: World)
    requires c.Fork? && Forking(env, c, x, last, w, w2)
    ensures var (r, w3) := FinishFork(env, o, c, results, Some(wakeAt), w2); RanNode(env, c, x, last, w, r, w3)
  {
    hide AgreeNode, EvalNode, DemandNode, NodeOwned, Adds, Checkpoint, ToMap;
    var w3 := MoveTo(w2, AtFork(c.id, ToMap(results), wakeAt));
    assert Ahead(env, c, x, last, w, w3);
    SaveRan(env, o, c, x, last, w, w3);
    var (s, w4) := Checkpoint(o, w3);
    assert s.None? ==> RanNode(env, c, x, last, w, Err(Waiting(wakeAt)), w4);
  }

  lemma {:induction false} RunNode(env: Env, o: Oracle, c: Cont, x: Bytes, top: bool, w: World)
    requires Honest(env, o) && DistinctNode(c) && ResumableNode(c, top) && Live(w)
    requires AgreeNode(env, c, x, Results(w.snap))
    ensures var (r, w') := ExecNode(env, o, c, x, w); RanNode(env, c, x, top && Next(c).None?, w, r, w')
    decreases c, 2
  {
    hide RanNode, AgreeNode, DistinctNode, Live;
    var last := top && Next(c).None?;
    match c
    case Task(_, _, _, _) => RunTask(env, o, c, x, last, w);
    case Delay(_, _, _) => RunDelay(env, o, c, x, top, w);
    case AwaitSignal(_, _, _, _) => RunSignal(env, o, c, x, top, w);
    case Fork(_, _, _) => RunFork(env, o, c, x, top, last, w);
    case Branch(_, _, _, _, _) => RunBranch(env, o, c, x, top, last, w);
    case ChildWorkflow(_, _, _) => RunChild(env, o, c, x, top, last, w);
    case Loop(_, _, _, _, _) => assert false;
  }
}
