/** Where saved snapshots stand: at nodes of their tree, and waiting as long as those nodes say. */
module Positions {
  import opened Prelude
  import opened Continuation
  import opened Semantics
  import opened Snapshots
  import opened Durable
  import opened Lifecycle
  import opened Parts
  import opened Walks

  // ----- every position belongs to a node -----

  /** Waiting for the duration `d` takes `span`; what 2^63 - 1 milliseconds cannot hold is not waited for. */
  predicate Lasts(span: int, d: nat) {
    span == if d <= 9_223_372_036_854_775_807 * 1_000_000 then d else 0
  }

  /** The successor recorded with a wait is the node's own. */
  predicate Follows(n: Cont, next: Option<string>) {
    next == if Next(n).Some? then Some(FirstTaskId(Next(n).value)) else None
  }

  /** The tree, or what follows one of its nodes, starts with this id. */
  ghost predicate StartsAt(root: Cont, id: string) {
    id == FirstTaskId(root) || exists n :: Inside(n, root) && Follows(n, Some(id))
  }

  ghost predicate DelayNode(root: Cont, n: Cont, p: Position) {
    && Inside(n, root) && n.Delay? && p.AtDelay? && n.id == p.delayId
    && Lasts(p.wakeAt - p.enteredAt, n.duration) && Follows(n, p.nextTaskId)
  }

  ghost predicate SignalNode(root: Cont, n: Cont, p: Position) {
    && Inside(n, root) && n.AwaitSignal? && p.AtSignal? && n.id == p.signalId && n.signalName == p.signalName
    && n.timeout.Some? == p.deadline.Some? && Follows(n, p.nextTaskId)
  }

  ghost predicate LoopNode(root: Cont, n: Cont, p: Position) {
    && Inside(n, root) && n.Loop? && p.InLoop? && n.id == p.loopId && 1 <= p.iteration <= n.maxIterations
    && p.nextTaskId == Some(FirstTaskId(n.body))
  }

  /** The position is one of the tree's. */
  ghost predicate Placed(root: Cont, p: Position) {
    match p
    case NotStarted => false
    case AtTask(id) => StartsAt(root, id)
    case AtFork(id, _, _) => exists n :: Inside(n, root) && n.Fork? && n.id == id
    case AtDelay(_, _, _, _) => exists n :: DelayNode(root, n, p)
    case AtSignal(_, _, _, _) => exists n :: SignalNode(root, n, p)
    case InLoop(_, _, _) => exists n :: LoopNode(root, n, p)
  }

  /** An instance that can go on stands at a place of the tree. */
  ghost predicate PlacedAt(root: Cont, s: Snapshot) {
    s.state.InProgress? || s.state.Paused? ==> Placed(root, s.state.position)
  }

  ghost predicate PlacedAll(root: Cont, trace: seq<Event>) {
    forall i :: 0 <= i < |trace| && trace[i].Saved? ==> PlacedAt(root, trace[i].snapshot)
  }

  ghost predicate PlacedRest(root: Cont, w: World) {
    PlacedAll(root, w.trace) && PlacedAt(root, w.saved)
  }

  ghost predicate PlacedWalk(root: Cont, w: World) {
    PlacedRest(root, w) && w.snap.state.InProgress? && Placed(root, w.snap.state.position)
  }

  ghost function PlaceLaw(root: Cont): Law {
    (alarm, stop, w) => PlacedWalk(root, w)
  }

  lemma PlacedStore(root: Cont, w: World, s: Snapshot)
    requires PlacedRest(root, w) && PlacedAt(root, s)
    ensures PlacedRest(root, Store(w, s))
  {
  }

  lemma PlacedGuard(root: Cont, o: Oracle, scope: Option<string>, w: World)
    requires PlacedRest(root, w)
    ensures var w' := Guard(o, scope, w).1; PlacedRest(root, w') && w'.snap == w.snap
  {
    hide PlacedAll, Placed;
    var w1 := w.(tick := w.tick + 1);
    if w.saved.state.InProgress? {
      PlacedStore(root, w1, MarkCancelled(w.saved, scope));
      PlacedStore(root, w1, MarkPaused(w.saved));
    }
  }

  lemma PlacedSave(root: Cont, o: Oracle, w: World)
    requires PlacedRest(root, w) && PlacedAt(root, w.snap)
    ensures var w' := Checkpoint(o, w).1; PlacedRest(root, w') && w'.snap == w.snap
  {
    hide PlacedAll, Placed;
    PlacedStore(root, w.(tick := w.tick + 1), w.snap);
  }

  lemma PlacedCall(root: Cont, env: Env, o: Oracle, id: string, x: Bytes, keyFn: bool, w: World)
    requires PlacedWalk(root, w)
    ensures PlacedWalk(root, CallTask(env, o, id, x, keyFn, w).1)
  {
    hide Placed;
  }

  lemma PlacedStep(root: Cont, o: Oracle, c: Cont, v: Bytes, w: World)
    requires PlacedWalk(root, w) && Inside(c, root)
    ensures PlacedWalk(root, RecordStep(o, c, v, w).1)
  {
    hide PlacedAll, Checkpoint;
    var w1 := Mark(w, c.id, v);
    if Next(c).Some? {
      var id := FirstTaskId(Next(c).value);
      assert Follows(c, Some(id)) && StartsAt(root, id);
      PlacedSave(root, o, MoveTo(w1, AtTask(id)));
    } else {
      PlacedSave(root, o, w1);
    }
  }

  lemma PlacedDelay(root: Cont, o: Oracle, c: Cont, x: Bytes, w: World)
    requires PlacedWalk(root, w) && Inside(c, root) && c.Delay?
    ensures PlacedWalk(root, ParkAtDelay(o, c, x, w).1)
  {
    hide PlacedAll, Checkpoint, FirstTaskId;
    var now := o.clock(w.tick);
    var p := AtDelay(c.id, now, now + Span(c.duration), SuccessorId(c));
    assert DelayNode(root, c, p);
    PlacedSave(root, o, Mark(MoveTo(w, p), c.id, x));
  }

  lemma PlacedSignal(root: Cont, o: Oracle, c: Cont, w: World)
    requires PlacedWalk(root, w) && Inside(c, root) && c.AwaitSignal?
    ensures PlacedWalk(root, ParkAtSignal(o, c, w).1)
  {
    hide PlacedAll, Checkpoint, FirstTaskId;
    var deadline := if c.timeout.Some? then Some(o.clock(w.tick) + Span(c.timeout.value)) else None;
    var p := AtSignal(c.id, c.signalName, deadline, SuccessorId(c));
    assert SignalNode(root, c, p);
    PlacedSave(root, o, MoveTo(w, p));
  }

  lemma PlacedFork(root: Cont, env: Env, o: Oracle, c: Cont, results: seq<(string, Bytes)>, wake: int, w: World)
    requires PlacedWalk(root, w) && Inside(c, root) && c.Fork?
    ensures PlacedWalk(root, FinishFork(env, o, c, results, Some(wake), w).1)
  {
    hide PlacedAll, Checkpoint, ToMap;
    PlacedSave(root, o, MoveTo(w, AtFork(c.id, ToMap(results), wake)));
  }

  lemma PlacedIteration(root: Cont, o: Oracle, c: Cont, i: nat, w: World)
    requires PlacedWalk(root, w) && Inside(c, root) && c.Loop? && 1 <= i <= c.maxIterations
    ensures PlacedWalk(root, NextIteration(o, c, i, w).1)
  {
    hide PlacedAll, Checkpoint, FirstTaskId;
    var p := InLoop(c.id, i, Some(FirstTaskId(c.body)));
    assert LoopNode(root, c, p);
    PlacedSave(root, o, w.(snap := UpdatePosition(SetLoopIteration(w.snap, c.id, i), p)));
  }

  lemma PlacedEdits(root: Cont, o: Oracle, w: World, id: string, v: Bytes, ids: set<string>, scope: Option<string>)
    requires PlacedWalk(root, w)
    ensures PlacedWalk(root, Guard(o, scope, w).1) && PlacedWalk(root, Record(o, id, v, w).1)
    ensures PlacedWalk(root, w.(tick := w.tick + 1))
    ensures PlacedWalk(root, w.(snap := RemoveTaskResults(w.snap, ids)))
    ensures PlacedWalk(root, w.(snap := ClearLoopIteration(w.snap, id)))
  {
    hide PlacedAll, Placed, Guard, Checkpoint;
    PlacedGuard(root, o, scope, w);
    PlacedSave(root, o, Mark(w, id, v));
  }

  lemma PlacesKept(env: Env, o: Oracle, root: Cont)
    ensures Kept(Setting(env, o, root, PlaceLaw(root), false))
  {
    hide PlacedWalk, Guard, CallTask, Record, RecordStep, ParkAtDelay, ParkAtSignal, FinishFork, NextIteration, Inside;
    var law := PlaceLaw(root);
    forall a, scope, w | law(a, None, w) ensures law(a, Guard(o, scope, w).0, Guard(o, scope, w).1) {
      PlacedEdits(root, o, w, "", [], {}, scope);
    }
    forall a, w, t | law(a, None, w) && t == w.tick + 1 ensures law(a, None, w.(tick := t)) {
      PlacedEdits(root, o, w, "", [], {}, None);
    }
    forall a, id, x, keyFn, w | law(a, None, w) ensures law(a, None, CallTask(env, o, id, x, keyFn, w).1) {
      PlacedCall(root, env, o, id, x, keyFn, w);
    }
    assert KeptByRecords(o, root, law) by {
      forall a, id, v, w | law(a, None, w) ensures law(a, StopOf(Record(o, id, v, w).0), Record(o, id, v, w).1) {
        PlacedEdits(root, o, w, id, v, {}, None);
      }
      forall a, c, v, w | law(a, None, w) && Inside(c, root)
        ensures law(a, StopOf(RecordStep(o, c, v, w).0), RecordStep(o, c, v, w).1)
      {
        PlacedStep(root, o, c, v, w);
      }
    }
    assert KeptByParks(env, o, root, law) by {
      forall a, c: Cont, x, w | law(a, None, w) && Inside(c, root) && c.Delay?
        ensures law(a, StopOf(ParkAtDelay(o, c, x, w).0), ParkAtDelay(o, c, x, w).1)
      {
        PlacedDelay(root, o, c, x, w);
      }
      forall a, c: Cont, w | law(a, None, w) && Inside(c, root) && c.AwaitSignal?
        ensures law(a, StopOf(ParkAtSignal(o, c, w).0), ParkAtSignal(o, c, w).1)
      {
        PlacedSignal(root, o, c, w);
      }
      forall a, c: Cont, results, wake, w | law(Max(a, wake), None, w) && Inside(c, root) && c.Fork?
        ensures var (r, w') := FinishFork(env, o, c, results, Some(wake), w); law(a, StopOf(r), w')
      {
        PlacedFork(root, env, o, c, results, wake, w);
      }
    }
    assert KeptByLoops(o, root, law) by {
      forall a, w, ids | law(a, None, w) ensures law(a, None, w.(snap := RemoveTaskResults(w.snap, ids))) {
        PlacedEdits(root, o, w, "", [], ids, None);
      }
      forall a, w, id | law(a, None, w) ensures law(a, None, w.(snap := ClearLoopIteration(w.snap, id))) {
        PlacedEdits(root, o, w, id, [], {}, None);
      }
      forall a, c: Cont, i: nat, w | law(a, None, w) && Inside(c, root) && c.Loop? && 1 <= i <= c.maxIterations
        ensures law(a, NextIteration(o, c, i, w).0, NextIteration(o, c, i, w).1)
      {
        PlacedIteration(root, o, c, i, w);
      }
    }
  }

  /** Resolving a wait moves on to the node that follows it. */
  ghost predicate PlacedOn(root: Cont, hold: Option<Report>, w: World) {
    PlacedRest(root, w) && (hold.None? ==> PlacedWalk(root, w))
  }

  lemma PlacedResolve(root: Cont, o: Oracle, w: World)
    requires PlacedWalk(root, w)
    ensures var (hold, w') := ResolveParked(o, w); PlacedOn(root, hold, w')
  {
    hide PlacedAll, Placed;
    match w.snap.state.position
    case AtDelay(_, _, _, _) => PlacedResolveDelay(root, o, w);
    case AtFork(_, _, _) => PlacedResolveFork(root, o, w);
    case AtSignal(_, _, _, _) => PlacedResolveSignal(root, o, w);
    case _ => assert ResolveParked(o, w) == (None, w);
  }

  lemma PlacedResolveDelay(root: Cont, o: Oracle, w: World)
    requires PlacedWalk(root, w) && w.snap.state.position.AtDelay?
    ensures var (hold, w') := ResolveParked(o, w); PlacedOn(root, hold, w')
  {
    hide PlacedAll, Placed, Guard, Checkpoint;
    var p := w.snap.state.position;
    if p.nextTaskId.Some? {
      NextPlaced(root, p);
    }
    PlacedGuard(root, o, Some(p.delayId), w);
    var w1 := Guard(o, Some(p.delayId), w).1;
    if p.nextTaskId.Some? {
      PlacedSave(root, o, MoveTo(w1, AtTask(p.nextTaskId.value)));
    } else {
      var output := TaskResult(w1.snap, p.delayId);
      PlacedEnd(root, o, MarkCompleted(w1.snap, if output.Some? then output.value else []), w1);
    }
  }

  lemma PlacedResolveFork(root: Cont, o: Oracle, w: World)
    requires PlacedWalk(root, w) && w.snap.state.position.AtFork?
    ensures var (hold, w') := ResolveParked(o, w); PlacedOn(root, hold, w')
  {
    hide PlacedAll, Placed, Guard, Checkpoint;
    var p := w.snap.state.position;
    PlacedGuard(root, o, Some(p.forkId), w);
    PlacedSave(root, o, Guard(o, Some(p.forkId), w).1);
  }

  lemma PlacedResolveSignal(root: Cont, o: Oracle, w: World)
    requires PlacedWalk(root, w) && w.snap.state.position.AtSignal?
    ensures var (hold, w') := ResolveParked(o, w); PlacedOn(root, hold, w')
  {
    hide PlacedAll, Placed, PlacedOn, Guard, AnswerSignal;
    var p := w.snap.state.position;
    if p.nextTaskId.Some? {
      NextPlaced(root, p);
    }
    PlacedGuard(root, o, Some(p.signalId), w);
    var w1 := Guard(o, Some(p.signalId), w).1;
    var w2 := w1.(tick := w1.tick + 1);
    PlacedHeld(root, w1);
    PlacedHeld(root, w2);
    PlacedAnswer(root, o, p, [], w2);
    if o.mail(w1.tick, p.signalName).Delivered? {
      PlacedAnswer(root, o, p, o.mail(w1.tick, p.signalName).payload, w2);
    }
  }

  lemma PlacedHeld(root: Cont, w: World)
    requires PlacedRest(root, w)
    ensures forall h :: PlacedOn(root, Some(h), w)
  {
  }

  lemma NextPlaced(root: Cont, p: Position)
    requires Placed(root, p) && (p.AtDelay? || p.AtSignal?) && p.nextTaskId.Some?
    ensures Placed(root, AtTask(p.nextTaskId.value))
  {
  }

  lemma PlacedEnd(root: Cont, o: Oracle, s: Snapshot, w: World)
    requires PlacedRest(root, w) && PlacedAt(root, s)
    ensures PlacedRest(root, Checkpoint(o, w.(snap := s)).1)
  {
    hide PlacedAll, Placed;
    PlacedSave(root, o, w.(snap := s));
  }

  lemma PlacedAnswer(root: Cont, o: Oracle, p: Position, payload: Bytes, w: World)
    requires PlacedWalk(root, w) && p.AtSignal?
    requires p.nextTaskId.Some? ==> Placed(root, AtTask(p.nextTaskId.value))
    ensures var (hold, w') := AnswerSignal(o, p, payload, w); PlacedOn(root, hold, w')
  {
    hide PlacedAll, Placed, Checkpoint;
    var w1 := Mark(w, p.signalId, payload);
    if p.nextTaskId.Some? {
      PlacedSave(root, o, MoveTo(w1, AtTask(p.nextTaskId.value)));
    } else {
      PlacedEnd(root, o, MarkCompleted(w1.snap, payload), w1);
    }
  }

  lemma PlacesRest(env: Env, o: Oracle, root: Cont)
    ensures KeptBetween(Setting(env, o, root, PlaceLaw(root), false), w => PlacedRest(root, w))
  {
    hide PlacedAll, Placed, Checkpoint, ResolveParked;
    forall w | PlacedRest(root, w) && w.snap == w.saved && w.saved.state.InProgress?
      ensures var (hold, w') := ResolveParked(o, w); if hold.None? then PlacedWalk(root, w') else PlacedRest(root, w')
    {
      PlacedResolve(root, o, w);
    }
    forall r, w | PlacedWalk(root, w) ensures PlacedRest(root, Finalize(o, r, w)) {
      PlacedEnd(root, o, MarkFailed(w.snap), w);
      if r.Ok? {
        PlacedEnd(root, o, MarkCompleted(w.snap, r.value), w);
      }
    }
    forall w | PlacedRest(root, w) && w.saved.state.Paused?
      ensures PlacedRest(root, Checkpoint(o, w.(snap := MarkUnpaused(w.saved))).1)
    {
      PlacedEnd(root, o, MarkUnpaused(w.saved), w);
    }
  }

  /**
   Every snapshot ever saved that can go on stands at a node of the tree: a delay with that node's duration, a
   signal wait with its name and a deadline if it has a timeout, each with what follows the node.
   */
  lemma PositionsBelong(env: Env, o: Oracle, c: Cont, x: Bytes, actions: seq<Action>)
    ensures PlacedAll(c, History(env, o, c, x, actions).trace)
  {
    assert PlacedWalk(c, Created(c, x));
    PlacesKept(env, o, c);
    PlacesRest(env, o, c);
    hide History, Kept, KeptBetween, PlacedAll;
    HistoryRests(Setting(env, o, c, PlaceLaw(c), false), w => PlacedRest(c, w), x, actions);
  }
}
