/**
 Once an instance has ended, by completion, failure or cancellation, nothing more is called or saved; before
 that, no request to cancel or pause it is ignored.
 */
module Endings {
  import opened Prelude
  import opened Continuation
  import opened Semantics
  import opened Snapshots
  import opened Durable
  import opened Lifecycle
  import opened Parts
  import opened Walks
  import opened Cancellation

  predicate HasEnded(s: Snapshot) {
    s.state.Completed? || s.state.Errored? || s.state.Cancelled?
  }

  /** The instance's input is kept, and a completed or failed snapshot has no loop counts left. */
  predicate Proper(input: Bytes, s: Snapshot) {
    s.initialInput == Some(input) && (s.state.Completed? || s.state.Errored? ==> s.loops == map[])
  }

  /** No saved snapshot has ended. */
  ghost predicate NoEnd(input: Bytes, trace: seq<Event>) {
    forall i :: 0 <= i < |trace| && trace[i].Saved? ==>
      Proper(input, trace[i].snapshot) && !HasEnded(trace[i].snapshot)
  }

  /** The end, if there was one, is the last event, and in the store. */
  ghost predicate EndLast(input: Bytes, w: World) {
    Proper(input, w.saved) &&
    if !HasEnded(w.saved) then NoEnd(input, w.trace) else
    var n := |w.trace| - 1;
    n >= 0 && w.trace[n] == Saved(w.saved) && NoEnd(input, w.trace[..n])
  }

  /** The instance goes on. */
  ghost predicate Alive(input: Bytes, w: World) {
    && w.snap.state.InProgress? && w.saved.state.InProgress?
    && Proper(input, w.snap) && Proper(input, w.saved) && NoEnd(input, w.trace)
  }

  ghost function EndLaw(input: Bytes): Law {
    (alarm, stop: Option<Stop>, w) =>
      if stop.None? || stop.value.Waiting? then Alive(input, w)
      else if stop.value.BackendFailure? || stop.value.Raised? then
        !HasEnded(w.saved) && NoEnd(input, w.trace) && Proper(input, w.saved) && w.snap.initialInput == Some(input)
      else EndLast(input, w)
  }

  lemma EndStore(input: Bytes, w: World, s: Snapshot, t: nat)
    requires NoEnd(input, w.trace) && Proper(input, s)
    ensures EndLast(input, Store(w.(tick := t), s)) && (!HasEnded(s) ==> NoEnd(input, Store(w, s).trace))
  {
    assert (w.trace + [Saved(s)])[..|w.trace|] == w.trace;
  }

  lemma AliveGuard(input: Bytes, o: Oracle, scope: Option<string>, w: World)
    requires Alive(input, w)
    ensures var (g, w') := Guard(o, scope, w); EndLaw(input)(0, g, w')
  {
    hide NoEnd;
    var w1 := w.(tick := w.tick + 1);
    EndStore(input, w, MarkCancelled(w.saved, scope), w.tick + 1);
    EndStore(input, w, MarkPaused(w.saved), w.tick + 1);
    assert Alive(input, w1) && EndLast(input, w1);
    match o.guard(w.tick)
    case CancelRequested => assert EndLast(input, Guard(o, scope, w).1);
    case PauseRequested => assert EndLast(input, Guard(o, scope, w).1);
    case _ =>
  }

  /** Saving a snapshot in progress. */
  lemma AliveSave(input: Bytes, o: Oracle, w: World, s: Snapshot)
    requires Alive(input, w) && s.state.InProgress? && s.initialInput == Some(input)
    ensures Alive(input, Checkpoint(o, w.(snap := s)).1)
  {
    hide NoEnd;
    EndStore(input, w, s, w.tick + 1);
  }

  lemma AliveCall(input: Bytes, env: Env, o: Oracle, id: string, x: Bytes, keyFn: bool, w: World)
    requires Alive(input, w)
    ensures Alive(input, CallTask(env, o, id, x, keyFn, w).1)
  {
  }

  lemma AliveRecords(input: Bytes, o: Oracle, c: Cont, id: string, v: Bytes, w: World)
    requires Alive(input, w)
    ensures Alive(input, Record(o, id, v, w).1) && Alive(input, RecordStep(o, c, v, w).1)
  {
    hide NoEnd, Checkpoint, FirstTaskId;
    AliveSave(input, o, w, MarkTaskCompleted(w.snap, id, v));
    var w1 := Mark(w, c.id, v);
    AliveSave(input, o, w, if Next(c).Some? then MoveTo(w1, AtTask(FirstTaskId(Next(c).value))).snap else w1.snap);
  }

  lemma AliveParks(
      input: Bytes, env: Env, o: Oracle, c: Cont, x: Bytes, results: seq<(string, Bytes)>, wake: int, w: World)
    requires Alive(input, w)
    ensures c.Delay? ==> Alive(input, ParkAtDelay(o, c, x, w).1)
    ensures c.AwaitSignal? ==> Alive(input, ParkAtSignal(o, c, w).1)
    ensures c.Fork? ==> Alive(input, FinishFork(env, o, c, results, Some(wake), w).1)
  {
    hide Alive, Checkpoint, FirstTaskId, SuccessorId, ToMap, Span;
    AliveInProgress(input, w);
    var now := o.clock(w.tick);
    match c
    case Delay(_, _, _) =>
      AliveSave(input, o, w, Mark(MoveTo(w, AtDelay(c.id, now, now + Span(c.duration), SuccessorId(c))), c.id, x).snap);
    case AwaitSignal(_, _, _, _) =>
      var deadline := if c.timeout.Some? then Some(now + Span(c.timeout.value)) else None;
      AliveSave(input, o, w, MoveTo(w, AtSignal(c.id, c.signalName, deadline, SuccessorId(c))).snap);
    case Fork(_, _, _) => AliveSave(input, o, w, MoveTo(w, AtFork(c.id, ToMap(results), wake)).snap);
    case _ =>
  }

  lemma AliveInProgress(input: Bytes, w: World)
    requires Alive(input, w)
    ensures w.snap.state.InProgress? && w.saved.state.InProgress? && !HasEnded(w.saved)
    ensures NoEnd(input, w.trace) && EndLast(input, w) && Proper(input, w.snap)
  {
  }

  /** While an instance is alive, a walk may stop for any reason. */
  lemma AliveStops(input: Bytes, a: int, s: Option<Stop>, w: World)
    requires Alive(input, w)
    ensures EndLaw(input)(a, s, w)
  {
    AliveInProgress(input, w);
  }

  lemma AliveEdits(input: Bytes, t: nat, ids: set<string>, id: string, w: World)
    requires Alive(input, w)
    ensures Alive(input, w.(tick := t)) && Alive(input, w.(snap := RemoveTaskResults(w.snap, ids)))
    ensures Alive(input, w.(snap := ClearLoopIteration(w.snap, id)))
  {
    hide NoEnd;
  }

  lemma EndsKept(input: Bytes, env: Env, o: Oracle, root: Cont)
    ensures Kept(Setting(env, o, root, EndLaw(input), false))
  {
    hide Alive, Guard, CallTask, KeptByRecords, KeptByLoops, KeptByParks;
    var law := EndLaw(input);
    forall a, s, w | law(a, None, w) ensures law(a, s, w) {
      AliveStops(input, a, s, w);
    }
    forall a, scope, w | law(a, None, w) ensures law(a, Guard(o, scope, w).0, Guard(o, scope, w).1) {
      AliveGuard(input, o, scope, w);
    }
    forall a, id, x, keyFn, w | law(a, None, w) ensures law(a, None, CallTask(env, o, id, x, keyFn, w).1) {
      AliveCall(input, env, o, id, x, keyFn, w);
    }
    forall a, w, t | law(a, None, w) && t == w.tick + 1 ensures law(a, None, w.(tick := t)) {
      AliveEdits(input, t, {}, "", w);
    }
    EndEdits(input, o, root);
    EndParks(input, env, o, root);
  }

  lemma EndEdits(input: Bytes, o: Oracle, root: Cont)
    ensures KeptByRecords(o, root, EndLaw(input)) && KeptByLoops(o, root, EndLaw(input))
  {
    hide Alive, Record, RecordStep, NextIteration, Inside;
    var law := EndLaw(input);
    forall a, id, v, w | law(a, None, w) ensures law(a, StopOf(Record(o, id, v, w).0), Record(o, id, v, w).1) {
      AliveRecords(input, o, root, id, v, w);
      AliveStops(input, a, StopOf(Record(o, id, v, w).0), Record(o, id, v, w).1);
    }
    forall a, c, v, w | law(a, None, w) ensures law(a, StopOf(RecordStep(o, c, v, w).0), RecordStep(o, c, v, w).1) {
      AliveRecords(input, o, c, "", v, w);
      AliveStops(input, a, StopOf(RecordStep(o, c, v, w).0), RecordStep(o, c, v, w).1);
    }
    forall a, w, ids | law(a, None, w) ensures law(a, None, w.(snap := RemoveTaskResults(w.snap, ids))) {
      AliveEdits(input, 0, ids, "", w);
    }
    forall a, w, id | law(a, None, w) ensures law(a, None, w.(snap := ClearLoopIteration(w.snap, id))) {
      AliveEdits(input, 0, {}, id, w);
    }
    forall a, c: Cont, i: nat, w | law(a, None, w) && c.Loop?
      ensures law(a, NextIteration(o, c, i, w).0, NextIteration(o, c, i, w).1)
    {
      IterationAlive(input, o, c, i, w);
      AliveStops(input, a, NextIteration(o, c, i, w).0, NextIteration(o, c, i, w).1);
    }
  }

  lemma IterationAlive(input: Bytes, o: Oracle, c: Cont, i: nat, w: World)
    requires Alive(input, w) && c.Loop?
    ensures Alive(input, NextIteration(o, c, i, w).1)
  {
    hide NoEnd, Checkpoint, FirstTaskId;
    var p := InLoop(c.id, i, Some(FirstTaskId(c.body)));
    AliveSave(input, o, w, UpdatePosition(SetLoopIteration(w.snap, c.id, i), p));
  }

  lemma EndParks(input: Bytes, env: Env, o: Oracle, root: Cont)
    ensures KeptByParks(env, o, root, EndLaw(input))
  {
    hide Alive, ParkAtDelay, ParkAtSignal, FinishFork, Inside;
    var law := EndLaw(input);
    forall a, c: Cont, x, w | law(a, None, w) && c.Delay?
      ensures law(a, StopOf(ParkAtDelay(o, c, x, w).0), ParkAtDelay(o, c, x, w).1)
    {
      AliveParks(input, env, o, c, x, [], 0, w);
      AliveStops(input, a, StopOf(ParkAtDelay(o, c, x, w).0), ParkAtDelay(o, c, x, w).1);
    }
    forall a, c: Cont, w | law(a, None, w) && c.AwaitSignal?
      ensures law(a, StopOf(ParkAtSignal(o, c, w).0), ParkAtSignal(o, c, w).1)
    {
      AliveParks(input, env, o, c, [], [], 0, w);
      AliveStops(input, a, StopOf(ParkAtSignal(o, c, w).0), ParkAtSignal(o, c, w).1);
    }
    forall a, c: Cont, results, wake, w | law(Max(a, wake), None, w) && c.Fork?
      ensures var (r, w') := FinishFork(env, o, c, results, Some(wake), w); law(a, StopOf(r), w')
    {
      AliveParks(input, env, o, c, [], results, wake, w);
      var (r, w') := FinishFork(env, o, c, results, Some(wake), w);
      AliveStops(input, a, StopOf(r), w');
    }
  }

  // ----- between walks -----

  /** Saving anything at all over an instance that has not ended. */
  lemma EndSave(input: Bytes, o: Oracle, s: Snapshot, w: World)
    requires !HasEnded(w.saved) && NoEnd(input, w.trace) && Proper(input, w.saved) && Proper(input, s)
    ensures EndLast(input, Checkpoint(o, w.(snap := s)).1)
    ensures s.state.InProgress? && w.saved.state.InProgress? ==> Alive(input, Checkpoint(o, w.(snap := s)).1)
  {
    hide NoEnd;
    EndStore(input, w, s, w.tick + 1);
  }

  lemma EndFinalize(input: Bytes, o: Oracle, r: ExecResult, w: World)
    requires EndLaw(input)(0, StopOf(r), w)
    ensures EndLast(input, Finalize(o, r, w))
  {
    hide NoEnd, Checkpoint;
    if r.Ok? {
      EndSave(input, o, MarkCompleted(w.snap, r.value), w);
    } else if r.error.BackendFailure? || r.error.Raised? {
      EndSave(input, o, MarkFailed(w.snap), w);
    }
  }

  lemma EndAnswer(input: Bytes, o: Oracle, p: Position, payload: Bytes, w: World)
    requires Alive(input, w) && p.AtSignal?
    ensures
      var (hold, w') := AnswerSignal(o, p, payload, w);
      if hold.None? then Alive(input, w') else EndLast(input, w')
  {
    hide NoEnd, Checkpoint;
    var w1 := Mark(w, p.signalId, payload);
    if p.nextTaskId.Some? {
      EndSave(input, o, MoveTo(w1, AtTask(p.nextTaskId.value)).snap, w);
    } else {
      EndSave(input, o, MarkCompleted(w1.snap, payload), w);
    }
  }

  lemma EndResolve(input: Bytes, o: Oracle, w: World)
    requires Alive(input, w)
    ensures var (hold, w') := ResolveParked(o, w); if hold.None? then Alive(input, w') else EndLast(input, w')
  {
    hide NoEnd, Guard, Checkpoint, AnswerSignal;
    var p := w.snap.state.position;
    if p.AtDelay? || p.AtFork? || p.AtSignal? {
      var scope := Some(if p.AtDelay? then p.delayId else if p.AtFork? then p.forkId else p.signalId);
      AliveGuard(input, o, scope, w);
      GuardSnap(input, o, scope, w);
      var (g, w1) := Guard(o, scope, w);
      if g.None? {
        match p
        case AtDelay(delayId, _, _, next) =>
          var output := TaskResult(w1.snap, delayId);
          EndSave(input, o, MarkCompleted(w1.snap, if output.Some? then output.value else []), w1);
          if next.Some? {
            EndSave(input, o, MoveTo(w1, AtTask(next.value)).snap, w1);
          }
        case AtFork(_, _, _) => EndSave(input, o, w1.snap, w1);
        case AtSignal(_, name, _, _) =>
          var w2 := w1.(tick := w1.tick + 1);
          EndAnswer(input, o, p, [], w2);
          if o.mail(w1.tick, name).Delivered? {
            EndAnswer(input, o, p, o.mail(w1.tick, name).payload, w2);
          }
      }
    }
  }

  lemma GuardSnap(input: Bytes, o: Oracle, scope: Option<string>, w: World)
    requires Alive(input, w)
    ensures var (g, w') := Guard(o, scope, w); w'.snap == w.snap && EndLast(input, w')
  {
    hide Alive, EndLast, NoEnd;
    AliveGuard(input, o, scope, w);
    LawEndLast(input, Guard(o, scope, w).0, Guard(o, scope, w).1);
  }

  lemma LawEndLast(input: Bytes, s: Option<Stop>, w: World)
    requires EndLaw(input)(0, s, w)
    ensures EndLast(input, w)
  {
    hide NoEnd;
    if s.None? || s.value.Waiting? {
      AliveInProgress(input, w);
    }
  }

  lemma EndLoad(input: Bytes, o: Oracle, w: World)
    requires EndLast(input, w)
    ensures EndLast(input, w.(snap := w.saved))
    ensures w.saved.state.InProgress? ==> Alive(input, w.(snap := w.saved))
    ensures w.saved.state.Paused? ==> EndLast(input, Checkpoint(o, w.(snap := MarkUnpaused(w.saved))).1)
  {
    hide NoEnd, Checkpoint;
    if w.saved.state.Paused? {
      EndSave(input, o, MarkUnpaused(w.saved), w);
    }
  }

  lemma EndsRest(input: Bytes, env: Env, o: Oracle, root: Cont)
    ensures KeptBetween(Setting(env, o, root, EndLaw(input), false), w => EndLast(input, w))
  {
    hide Alive, EndLast, NoEnd, Checkpoint, ResolveParked, Finalize;
    var k, rest := Setting(env, o, root, EndLaw(input), false), w => EndLast(input, w);
    forall w | rest(w) ensures rest(w.(snap := w.saved)) {
      EndLoad(input, o, w);
    }
    forall w | rest(w) && w.snap == w.saved && w.saved.state.InProgress?
      ensures var (hold, w') := ResolveParked(o, w); if hold.None? then k.law(0, None, w') else rest(w')
    {
      EndLoad(input, o, w);
      assert w.(snap := w.saved) == w;
      EndResolve(input, o, w);
    }
    forall w | k.law(0, None, w) ensures rest(w) {
      AliveInProgress(input, w);
    }
    forall r, w | k.law(0, StopOf(r), w) ensures rest(Finalize(o, r, w)) {
      EndFinalize(input, o, r, w);
    }
    forall w | rest(w) && w.saved.state.Paused? ensures rest(Checkpoint(o, w.(snap := MarkUnpaused(w.saved))).1) {
      EndLoad(input, o, w);
    }
  }

  lemma HistoryEndLast(env: Env, o: Oracle, c: Cont, x: Bytes, actions: seq<Action>)
    ensures EndLast(x, History(env, o, c, x, actions))
  {
    hide History, Kept, KeptBetween;
    assert Alive(x, Created(c, x));
    EndsKept(x, env, o, c);
    EndsRest(x, env, o, c);
    HistoryRests(Setting(env, o, c, EndLaw(x), false), w => EndLast(x, w), x, actions);
  }

  /** The end is the last thing that happens: no call and no save follows one of a snapshot that has ended. */
  lemma EndIsLast(env: Env, o: Oracle, c: Cont, x: Bytes, actions: seq<Action>, i: nat)
    requires
      var trace := History(env, o, c, x, actions).trace;
      i < |trace| && trace[i].Saved? && HasEnded(trace[i].snapshot)
    ensures
      var w := History(env, o, c, x, actions);
      i == |w.trace| - 1 && w.saved == w.trace[i].snapshot && Proper(x, w.saved)
  {
    hide History;
    HistoryEndLast(env, o, c, x, actions);
    var w := History(env, o, c, x, actions);
    assert forall j :: 0 <= j < |w.trace| - 1 ==> w.trace[..|w.trace| - 1][j] == w.trace[j];
  }

  // ----- requests are never ignored -----

  /** Walking through a part of the tree, the law of endings kept. */
  ghost predicate Ours(input: Bytes, k: Setting) {
    k.law == EndLaw(input) && !k.calm && Kept(k)
  }

  lemma AliveLaw(input: Bytes, k: Setting)
    requires Ours(input, k)
    ensures forall a, w :: k.law(a, None, w) <==> Alive(input, w)
    ensures forall a, t, w :: k.law(a, Some(Waiting(t)), w) ==> Alive(input, w)
  {
    hide Kept;
  }

  /** Wherever a walk looks for requests, the instance is in progress. */
  lemma {:induction false} ExecPoints(input: Bytes, k: Setting, c: Cont, x: Bytes, w: World, p: Point)
    requires Ours(input, k) && Inside(c, k.root) && Alive(input, w) && p in Guards(k.env, k.o, c, x, w)
    ensures Alive(input, p.world)
    decreases c, 4
  {
    hide Ours, Alive, ExecNode, NodeGuards, Inside;
    if p in NodeGuards(k.env, k.o, c, x, w) {
      NodePoints(input, k, c, x, w, p);
    } else {
      var (r, w1) := ExecNode(k.env, k.o, c, x, w);
      NodeAlive(input, k, c, x, w);
      InsideNext(c, k.root);
      ExecPoints(input, k, Next(c).value, r.value, w1, p);
    }
  }

  lemma NodeAlive(input: Bytes, k: Setting, c: Cont, x: Bytes, w: World)
    requires Ours(input, k) && Inside(c, k.root) && Alive(input, w)
    ensures var (r, w') := ExecNode(k.env, k.o, c, x, w); r.Ok? ==> Alive(input, w')
  {
    hide Kept, Alive, ExecNode;
    AliveLaw(input, k);
    NodeEnds(k, 0, c, x, false, w);
  }

  lemma ExecAlive(input: Bytes, k: Setting, c: Cont, x: Bytes, w: World)
    requires Ours(input, k) && Inside(c, k.root) && Alive(input, w)
    ensures var (r, w') := Exec(k.env, k.o, c, x, w); r.Ok? || r.error.Waiting? ==> Alive(input, w')
  {
    hide Kept, Alive, Exec;
    AliveLaw(input, k);
    ExecEnds(k, 0, c, x, false, w);
  }

  lemma {:induction false} NodePoints(input: Bytes, k: Setting, c: Cont, x: Bytes, w: World, p: Point)
    requires Ours(input, k) && Inside(c, k.root) && Alive(input, w) && p in NodeGuards(k.env, k.o, c, x, w)
    ensures Alive(input, p.world)
    decreases c, 3
  {
    hide Alive, Kept, Guard, InnerGuards, Inside;
    if p != Point(ScopeOf(c), w) {
      var (g, w1) := Guard(k.o, ScopeOf(c), w);
      AliveLaw(input, k);
      GuardEnds(k, 0, ScopeOf(c), w);
      InnerPoints(input, k, c, x, w1, p);
    }
  }

  lemma {:induction false} InnerPoints(input: Bytes, k: Setting, c: Cont, x: Bytes, w: World, p: Point)
    requires Ours(input, k) && Inside(c, k.root) && Alive(input, w) && p in InnerGuards(k.env, k.o, c, x, w)
    requires c.Task? ==> TaskResult(w.snap, c.id).None?
    ensures Alive(input, p.world)
    decreases c, 2
  {
    hide Alive, Kept, CallTask, RecordStep, Guards, BranchGuards, LoopGuards, EndLaw;
    AliveLaw(input, k);
    match c
    case Task(id, _, _, _) =>
      CallEnds(k, 0, id, x, false, w);
      var (v, w1) := CallTask(k.env, k.o, id, x, false, w);
      RecordStepEnds(k, 0, c, v.value, w1);
      var (r, w2) := RecordStep(k.o, c, v.value, w1);
      assert p.world == w2 && k.law(0, StopOf(r), w2);
    case Fork(_, branches, _) => BranchPoints(input, k, c, branches, x, w, p);
    case Branch(id, _, _, _, _) =>
      CallEnds(k, 0, KeyFnId(id), x, true, w);
      var (v, w1) := CallTask(k.env, k.o, KeyFnId(id), x, true, w);
      var route := Choose(k.env, c, v.value).value.1;
      FitsInner(k, c, route, false);
      ExecPoints(input, k, route, x, w1, p);
    case Loop(id, body, _, _, _) =>
      FitsInner(k, c, body, false);
      LoopPoints(input, k, c, LoopIteration(w.snap, id), x, w, p);
    case ChildWorkflow(_, child, _) =>
      FitsInner(k, c, child, false);
      ExecPoints(input, k, child, x, w, p);
  }

  lemma {:induction false} BranchPoints(
      input: Bytes, k: Setting, c: Cont, branches: seq<Cont>, x: Bytes, w: World, p: Point)
    requires Ours(input, k) && Inside(c, k.root) && c.Fork? && (forall b :: b in branches ==> b in c.branches)
    requires Alive(input, w) && p in BranchGuards(k.env, k.o, branches, x, w)
    ensures Alive(input, p.world)
    decreases branches, 5
  {
    hide Alive, Kept, Exec, Record, Guards, EndLaw, Inside;
    var b, rest := branches[0], branches[1..];
    if TaskResult(w.snap, b.id).Some? {
      BranchPoints(input, k, c, rest, x, w, p);
    } else {
      FitsInner(k, c, b, true);
      ExecAlive(input, k, b, x, w);
      var (r, w1) := Exec(k.env, k.o, b, x, w);
      if p in Guards(k.env, k.o, b, x, w) {
        ExecPoints(input, k, b, x, w, p);
      } else if r.Ok? {
        AliveLaw(input, k);
        RecordEnds(k, 0, b.id, r.value, w1);
        BranchPoints(input, k, c, rest, x, Record(k.o, b.id, r.value, w1).1, p);
      } else {
        BranchPoints(input, k, c, rest, x, w1, p);
      }
    }
  }

  lemma {:induction false} LoopPoints(input: Bytes, k: Setting, c: Cont, i: nat, x: Bytes, w: World, p: Point)
    requires Ours(input, k) && Inside(c, k.root) && c.Loop? && Inside(c.body, k.root)
    requires Alive(input, w) && p in LoopGuards(k.env, k.o, c, i, x, w)
    ensures Alive(input, p.world)
    decreases c, 1, c.maxIterations - i
  {
    hide Alive, Kept, Exec, NextIteration, Guards, EndLaw, Inside, Ids;
    if p in Guards(k.env, k.o, c.body, x, w) {
      ExecPoints(input, k, c.body, x, w, p);
    } else {
      var (r, w1) := Exec(k.env, k.o, c.body, x, w);
      ExecAlive(input, k, c.body, x, w);
      AliveLaw(input, k);
      Dropped(k, 0, c, Ids(c.body), w1);
      var w2 := w1.(snap := RemoveTaskResults(w1.snap, Ids(c.body)));
      IterationEnds(k, 0, c, i + 1, false, w2);
      LoopPoints(input, k, c, i + 1, k.env.decodeLoop(r.value).value.1, NextIteration(k.o, c, i + 1, w2).1, p);
    }
  }

  /** Wherever an action looks for requests, the instance is in progress, so a request is never ignored. */
  lemma RequestsAreSeen(env: Env, o: Oracle, c: Cont, x: Bytes, actions: seq<Action>, p: Point)
    requires p in LastGuards(env, o, c, x, actions)
    ensures p.world.saved.state.InProgress?
  {
    var k := Setting(env, o, c, EndLaw(x), false);
    EndsKept(x, env, o, c);
    hide Kept, History, Guards, ResolveParked, Inside;
    assert Inside(c, c) by {
      InsideSelf(c);
    }
    if actions == [] {
      ExecPoints(x, k, c, x, Created(c, x), p);
    } else {
      var w := History(env, o, c, x, actions[..|actions| - 1]);
      HistoryEndLast(env, o, c, x, actions[..|actions| - 1]);
      var w1 := w.(snap := w.saved);
      var (hold, w2) := ResolveParked(o, w1);
      if p.world != w1 {
        EndResolve(x, o, w1);
        ExecPoints(x, k, c, ResumeInput(w2.snap).value, w2, p);
      }
    }
  }

  lemma InsideSelf(c: Cont)
    ensures Inside(c, c)
  {
  }

  /**
   Cancelling is final. Wherever an action comes to a point and a cancel request is pending, the store holds
   from then on, whatever actions follow, a cancelled snapshot with the results and under the scope of
   that moment, and nothing more is called or saved.
   */
  lemma CancelIsFinal(
      env: Env, o: Oracle, c: Cont, x: Bytes, actions: seq<Action>, p: Point, more: seq<Action>)
    requires p in LastGuards(env, o, c, x, actions) && o.guard(p.world.tick) == CancelRequested
    ensures
      var w := History(env, o, c, x, actions + more);
      && p.world.saved.state.InProgress?
      && w.saved == p.world.saved.(state := Cancelled(p.world.saved.state.completed, p.scope))
      && w.trace == p.world.trace + [Saved(w.saved)]
  {
    hide History, LastGuards;
    RequestsAreSeen(env, o, c, x, actions, p);
    LastHeeds(env, o, c, x, actions, p);
    EndedStays(env, o, c, x, actions, more);
  }

  /**
   Pausing is undone by unpausing. Wherever an action comes to a point and a pause request is pending, it
   leaves the stored snapshot paused, and one unpause whose save works puts it back as it was.
   */
  lemma PauseIsUndone(env: Env, o: Oracle, c: Cont, x: Bytes, actions: seq<Action>, p: Point)
    requires p in LastGuards(env, o, c, x, actions) && o.guard(p.world.tick) == PauseRequested
    ensures
      var w, s := History(env, o, c, x, actions), p.world.saved.state;
      && s.InProgress? && w.saved == p.world.saved.(state := Paused(s.position, s.completed, s.last))
      && w.trace == p.world.trace + [Saved(w.saved)]
      && (o.save(w.tick).Works? ==> History(env, o, c, x, actions + [Unpause]).saved == p.world.saved)
  {
    hide LastGuards, Walk, Attempt;
    RequestsAreSeen(env, o, c, x, actions, p);
    LastHeeds(env, o, c, x, actions, p);
    assert (actions + [Unpause])[..|actions|] == actions;
  }
}
