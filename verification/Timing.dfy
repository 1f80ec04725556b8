/** Waits begin when they are reached: their duration counts from there, and ends before anything else is called. */
module Timing {
  import opened Prelude
  import opened Continuation
  import opened Semantics
  import opened Snapshots
  import opened Durable
  import opened Lifecycle
  import opened Parts
  import opened Walks
  import opened DelaySafety
  import opened Positions

  /** A wait for a signal or, if `delays`, also one at a delay. */
  predicate IsWait(p: Position, delays: bool) {
    p.AtSignal? || (delays && p.AtDelay?)
  }

  /** The wait has begun at time `t`. */
  ghost predicate Since(root: Cont, p: Position, t: int) {
    && (p.AtDelay? ==> p.enteredAt == t)
    && (p.AtSignal? && p.deadline.Some? ==>
          exists n :: SignalNode(root, n, p) && Lasts(p.deadline.value - t, n.timeout.value))
  }

  /** All calls were made by time `t`. */
  ghost predicate CallsBy(trace: seq<Event>, t: int) {
    forall i :: 0 <= i < |trace| && trace[i].Called? ==> trace[i].at <= t
  }

  /** A wait has begun after all calls made so far. */
  ghost predicate Timed(root: Cont, delays: bool, trace: seq<Event>, p: Position) {
    IsWait(p, delays) ==> exists t :: Since(root, p, t) && CallsBy(trace, t)
  }

  ghost predicate TimedAt(root: Cont, delays: bool, trace: seq<Event>, s: Snapshot) {
    s.state.InProgress? || s.state.Paused? ==> Timed(root, delays, trace, s.state.position)
  }

  ghost predicate TimedAll(root: Cont, delays: bool, trace: seq<Event>) {
    forall i :: 0 <= i < |trace| && trace[i].Saved? ==> TimedAt(root, delays, trace[..i], trace[i].snapshot)
  }

  /** Between actions, and once a walk has stopped. */
  ghost predicate Stopped(root: Cont, delays: bool, o: Oracle, w: World) {
    && TimedAll(root, delays, w.trace) && CallsBy(w.trace, o.clock(w.tick))
    && TimedAt(root, delays, w.trace, w.saved)
  }

  /** The snapshot does not wait. */
  predicate Moving(delays: bool, s: Snapshot) {
    s.state.InProgress? || s.state.Paused? ==> !IsWait(s.state.position, delays)
  }

  ghost predicate Going(root: Cont, delays: bool, o: Oracle, w: World) {
    Stopped(root, delays, o, w) && w.snap.state.InProgress? && Moving(delays, w.snap) && Moving(delays, w.saved)
  }

  ghost function TimeLaw(root: Cont, delays: bool, o: Oracle): Law {
    (alarm, stop: Option<Stop>, w) =>
      if stop.None? || (!delays && stop.value.Waiting?) then Going(root, delays, o, w) else Stopped(root, delays, o, w)
  }

  lemma TimedStore(root: Cont, delays: bool, o: Oracle, w: World, s: Snapshot)
    requires Stopped(root, delays, o, w) && TimedAt(root, delays, w.trace, s)
    ensures Stopped(root, delays, o, Store(w, s))
  {
    hide Since;
    var trace := w.trace + [Saved(s)];
    forall i | 0 <= i < |trace| && trace[i].Saved? ensures TimedAt(root, delays, trace[..i], trace[i].snapshot) {
      assert trace[..i] == w.trace[..i];
      assert i == |w.trace| ==> trace[..i] == w.trace;
    }
    assert forall t :: CallsBy(w.trace, t) ==> CallsBy(trace, t);
  }

  lemma TimedTick(root: Cont, delays: bool, o: Oracle, w: World)
    requires Monotone(o) && Stopped(root, delays, o, w)
    ensures Stopped(root, delays, o, w.(tick := w.tick + 1))
  {
    hide TimedAll, TimedAt;
    assert o.clock(w.tick) <= o.clock(w.tick + 1);
  }

  lemma TimedCall(root: Cont, delays: bool, env: Env, o: Oracle, id: string, x: Bytes, keyFn: bool, w: World)
    requires Monotone(o) && Going(root, delays, o, w)
    ensures Going(root, delays, o, CallTask(env, o, id, x, keyFn, w).1)
  {
    hide Timed;
    var trace := w.trace + [Called(id, x, keyFn, o.clock(w.tick))];
    TimedTick(root, delays, o, w);
    forall i | 0 <= i < |trace| && trace[i].Saved? ensures TimedAt(root, delays, trace[..i], trace[i].snapshot) {
      assert trace[..i] == w.trace[..i];
    }
    assert TimedAt(root, delays, trace, w.saved) by {
      MovingTimed(root, delays, trace, w.saved);
    }
  }

  lemma MovingTimed(root: Cont, delays: bool, trace: seq<Event>, s: Snapshot)
    requires Moving(delays, s)
    ensures TimedAt(root, delays, trace, s)
  {
  }

  /** Saving a snapshot that does not wait, or one that has just begun to. */
  lemma TimedSave(root: Cont, delays: bool, o: Oracle, w: World)
    requires Monotone(o) && Stopped(root, delays, o, w) && TimedAt(root, delays, w.trace, w.snap)
    ensures var w' := Checkpoint(o, w).1; Stopped(root, delays, o, w') && w'.snap == w.snap
    ensures var w' := Checkpoint(o, w).1; w'.saved == w.saved || w'.saved == w.snap
  {
    hide Stopped, TimedAt;
    TimedTick(root, delays, o, w);
    TimedStore(root, delays, o, w.(tick := w.tick + 1), w.snap);
  }

  lemma GoingSave(root: Cont, delays: bool, o: Oracle, w: World, s: Snapshot)
    requires Monotone(o) && Going(root, delays, o, w) && s.state.InProgress? && Moving(delays, s)
    ensures Going(root, delays, o, Checkpoint(o, w.(snap := s)).1)
  {
    hide TimedAll, TimedAt, Checkpoint, CallsBy;
    MovingTimed(root, delays, w.trace, s);
    TimedSave(root, delays, o, w.(snap := s));
  }

  lemma TimedGuard(root: Cont, delays: bool, o: Oracle, scope: Option<string>, w: World)
    requires Monotone(o) && Stopped(root, delays, o, w)
    ensures var w' := Guard(o, scope, w).1; Stopped(root, delays, o, w') && w'.snap == w.snap
    ensures Moving(delays, w.saved) ==> Moving(delays, Guard(o, scope, w).1.saved)
  {
    hide TimedAll, Timed, CallsBy;
    TimedTick(root, delays, o, w);
    var w1 := w.(tick := w.tick + 1);
    if w.saved.state.InProgress? {
      TimedStore(root, delays, o, w1, MarkPaused(w.saved));
      TimedStore(root, delays, o, w1, MarkCancelled(w.saved, scope));
    }
  }

  lemma GoingEdits(
      root: Cont, delays: bool, o: Oracle, w: World, id: string, v: Bytes, ids: set<string>, scope: Option<string>)
    requires Monotone(o) && Going(root, delays, o, w)
    ensures Going(root, delays, o, Guard(o, scope, w).1) && Going(root, delays, o, Record(o, id, v, w).1)
    ensures Going(root, delays, o, w.(tick := w.tick + 1))
    ensures Going(root, delays, o, w.(snap := RemoveTaskResults(w.snap, ids)))
    ensures Going(root, delays, o, w.(snap := ClearLoopIteration(w.snap, id)))
  {
    hide TimedAll, TimedAt, CallsBy, Guard, Checkpoint;
    TimedGuard(root, delays, o, scope, w);
    GoingSave(root, delays, o, w, MarkTaskCompleted(w.snap, id, v));
    TimedTick(root, delays, o, w);
  }

  lemma GoingStep(root: Cont, delays: bool, o: Oracle, c: Cont, v: Bytes, w: World)
    requires Monotone(o) && Going(root, delays, o, w)
    ensures Going(root, delays, o, RecordStep(o, c, v, w).1)
  {
    hide Stopped, Checkpoint, FirstTaskId;
    var w1 := Mark(w, c.id, v);
    GoingSave(root, delays, o, w,
      if Next(c).Some? then MoveTo(w1, AtTask(FirstTaskId(Next(c).value))).snap else w1.snap);
  }

  lemma GoingFork(
      root: Cont, delays: bool, env: Env, o: Oracle, c: Cont, results: seq<(string, Bytes)>, t: int, w: World)
    requires Monotone(o) && Going(root, delays, o, w) && c.Fork?
    ensures Going(root, delays, o, FinishFork(env, o, c, results, Some(t), w).1)
  {
    hide Stopped, Checkpoint, ToMap;
    GoingSave(root, delays, o, w, MoveTo(w, AtFork(c.id, ToMap(results), t)).snap);
  }

  lemma GoingLoop(root: Cont, delays: bool, o: Oracle, c: Cont, i: nat, w: World)
    requires Monotone(o) && Going(root, delays, o, w) && c.Loop?
    ensures Going(root, delays, o, NextIteration(o, c, i, w).1)
  {
    hide Stopped, Checkpoint, FirstTaskId;
    GoingSave(root, delays, o, w,
      UpdatePosition(SetLoopIteration(w.snap, c.id, i), InLoop(c.id, i, Some(FirstTaskId(c.body)))));
  }

  lemma TimedDelay(root: Cont, delays: bool, o: Oracle, c: Cont, x: Bytes, w: World)
    requires Monotone(o) && Going(root, delays, o, w) && c.Delay?
    ensures var (r, w') := ParkAtDelay(o, c, x, w); r.Err? && Stopped(root, delays, o, w')
    ensures !delays ==> Going(root, delays, o, ParkAtDelay(o, c, x, w).1)
  {
    hide Checkpoint, SuccessorId, TimedAll, CallsBy;
    var now := o.clock(w.tick);
    var p := AtDelay(c.id, now, now + Span(c.duration), SuccessorId(c));
    assert Since(root, p, now);
    TimedSave(root, delays, o, Mark(MoveTo(w, p), c.id, x));
  }

  lemma TimedSignal(root: Cont, delays: bool, o: Oracle, c: Cont, w: World)
    requires Monotone(o) && Going(root, delays, o, w) && c.AwaitSignal? && Inside(c, root)
    ensures var (r, w') := ParkAtSignal(o, c, w); r.Err? && Stopped(root, delays, o, w')
  {
    hide SuccessorId, TimedAll, CallsBy, Inside, FirstTaskId, Checkpoint;
    var now := o.clock(w.tick);
    var deadline := if c.timeout.Some? then Some(now + Span(c.timeout.value)) else None;
    var p := AtSignal(c.id, c.signalName, deadline, SuccessorId(c));
    Successor(c);
    assert SignalNode(root, c, p);
    assert Since(root, p, now);
    TimedSave(root, delays, o, MoveTo(w, p));
  }

  lemma SignalStops(o: Oracle, c: Cont, w: World)
    requires c.AwaitSignal?
    ensures var (r, w') := ParkAtSignal(o, c, w); r.Err? && !r.error.Waiting?
  {
  }

  lemma Successor(c: Cont)
    ensures Follows(c, SuccessorId(c))
  {
  }

  lemma GoingStops(root: Cont, delays: bool, o: Oracle)
    ensures forall w :: Going(root, delays, o, w) ==> Stopped(root, delays, o, w)
  {
    hide Stopped;
  }

  lemma TimeEdits(o: Oracle, root: Cont, delays: bool)
    requires Monotone(o)
    ensures var law := TimeLaw(root, delays, o); KeptByRecords(o, root, law) && KeptByLoops(o, root, law)
  {
    hide Monotone, Going, Stopped, Record, RecordStep, NextIteration, Inside;
    var law := TimeLaw(root, delays, o);
    GoingStops(root, delays, o);
    forall a, id, v, w | law(a, None, w) ensures law(a, StopOf(Record(o, id, v, w).0), Record(o, id, v, w).1) {
      GoingEdits(root, delays, o, w, id, v, {}, None);
    }
    forall a, c, v, w | law(a, None, w) ensures law(a, StopOf(RecordStep(o, c, v, w).0), RecordStep(o, c, v, w).1) {
      GoingStep(root, delays, o, c, v, w);
    }
    forall a, w, ids | law(a, None, w) ensures law(a, None, w.(snap := RemoveTaskResults(w.snap, ids))) {
      GoingEdits(root, delays, o, w, "", [], ids, None);
    }
    forall a, w, id | law(a, None, w) ensures law(a, None, w.(snap := ClearLoopIteration(w.snap, id))) {
      GoingEdits(root, delays, o, w, id, [], {}, None);
    }
    forall a, c: Cont, i: nat, w | law(a, None, w) && c.Loop?
      ensures law(a, NextIteration(o, c, i, w).0, NextIteration(o, c, i, w).1)
    {
      GoingLoop(root, delays, o, c, i, w);
    }
  }

  lemma TimeParks(env: Env, o: Oracle, root: Cont, delays: bool)
    requires Monotone(o)
    ensures KeptByParks(env, o, root, TimeLaw(root, delays, o))
  {
    hide Monotone, Going, Stopped, ParkAtDelay, ParkAtSignal, FinishFork, Inside;
    var law := TimeLaw(root, delays, o);
    GoingStops(root, delays, o);
    forall a, c: Cont, x, w | law(a, None, w) && c.Delay?
      ensures law(a, StopOf(ParkAtDelay(o, c, x, w).0), ParkAtDelay(o, c, x, w).1)
    {
      TimedDelay(root, delays, o, c, x, w);
    }
    forall a, c: Cont, w | law(a, None, w) && Inside(c, root) && c.AwaitSignal?
      ensures law(a, StopOf(ParkAtSignal(o, c, w).0), ParkAtSignal(o, c, w).1)
    {
      TimedSignal(root, delays, o, c, w);
      SignalStops(o, c, w);
    }
    forall a, c: Cont, results, wake, w | law(Max(a, wake), None, w) && c.Fork?
      ensures var (r, w') := FinishFork(env, o, c, results, Some(wake), w); law(a, StopOf(r), w')
    {
      GoingFork(root, delays, env, o, c, results, wake, w);
    }
  }

  lemma TimesKept(env: Env, o: Oracle, root: Cont, delays: bool)
    requires Monotone(o)
    ensures Kept(Setting(env, o, root, TimeLaw(root, delays, o), delays))
  {
    hide Monotone, Going, Stopped, Guard, CallTask, KeptByRecords, KeptByParks, KeptByLoops;
    var law := TimeLaw(root, delays, o);
    GoingStops(root, delays, o);
    forall a, scope, w | law(a, None, w) ensures law(a, Guard(o, scope, w).0, Guard(o, scope, w).1) {
      GoingEdits(root, delays, o, w, "", [], {}, scope);
    }
    forall a, id, x, keyFn, w | law(a, None, w) ensures law(a, None, CallTask(env, o, id, x, keyFn, w).1) {
      TimedCall(root, delays, env, o, id, x, keyFn, w);
    }
    forall a, w, t | law(a, None, w) && t == w.tick + 1 ensures law(a, None, w.(tick := t)) {
      GoingEdits(root, delays, o, w, "", [], {}, None);
    }
    TimeEdits(o, root, delays);
    TimeParks(env, o, root, delays);
  }

  // ----- between walks -----

  lemma TimedEnd(root: Cont, delays: bool, o: Oracle, s: Snapshot, w: World)
    requires Monotone(o) && Stopped(root, delays, o, w) && TimedAt(root, delays, w.trace, s)
    ensures Stopped(root, delays, o, Checkpoint(o, w.(snap := s)).1)
  {
    hide TimedAll, Timed, CallsBy, Checkpoint;
    TimedSave(root, delays, o, w.(snap := s));
  }

  /** What resolving a position leaves behind. */
  ghost predicate TimedOn(root: Cont, delays: bool, o: Oracle, hold: Option<Report>, w: World) {
    Stopped(root, delays, o, w) && (hold.None? ==> Going(root, delays, o, w))
  }

  /** A successful save leaves the moved snapshot in the store. */
  lemma TimedMove(root: Cont, delays: bool, o: Oracle, s: Snapshot, w: World)
    requires Monotone(o) && Stopped(root, delays, o, w) && s.state.InProgress? && Moving(delays, s)
    ensures var (f, w') := SaveOrFail(o, w.(snap := s)); TimedOn(root, delays, o, f, w')
  {
    hide TimedAll, TimedAt, CallsBy;
    MovingTimed(root, delays, w.trace, s);
    TimedSave(root, delays, o, w.(snap := s));
  }

  lemma TimedAnswer(root: Cont, delays: bool, o: Oracle, p: Position, payload: Bytes, w: World)
    requires Monotone(o) && Stopped(root, delays, o, w) && p.AtSignal? && w.snap.state.InProgress?
    ensures var (hold, w') := AnswerSignal(o, p, payload, w); TimedOn(root, delays, o, hold, w')
  {
    hide Stopped, Checkpoint, TimedAt, SaveOrFail;
    var w1 := Mark(w, p.signalId, payload);
    if p.nextTaskId.Some? {
      TimedMove(root, delays, o, MoveTo(w1, AtTask(p.nextTaskId.value)).snap, w);
    } else {
      TimedFinish(root, delays, o, payload, w1.snap, w);
    }
  }

  lemma TimedFinish(root: Cont, delays: bool, o: Oracle, v: Bytes, s: Snapshot, w: World)
    requires Monotone(o) && Stopped(root, delays, o, w)
    ensures var (hold, w') := CompleteAtWait(o, v, w.(snap := s)); hold.Some? && Stopped(root, delays, o, w')
  {
    hide Stopped, Checkpoint, Timed;
    TimedEnd(root, delays, o, MarkCompleted(s, v), w);
  }

  lemma TimedResolve(root: Cont, delays: bool, o: Oracle, w: World)
    requires Monotone(o) && Stopped(root, delays, o, w) && w.snap == w.saved && w.saved.state.InProgress?
    ensures var (hold, w') := ResolveParked(o, w); TimedOn(root, delays, o, hold, w')
  {
    hide Stopped;
    match w.snap.state.position
    case AtDelay(_, _, _, _) => TimedResolveDelay(root, delays, o, w);
    case AtFork(_, _, _) => TimedResolveFork(root, delays, o, w);
    case AtSignal(_, _, _, _) => TimedResolveSignal(root, delays, o, w);
    case _ => assert ResolveParked(o, w) == (None, w);
  }

  lemma TimedResolveDelay(root: Cont, delays: bool, o: Oracle, w: World)
    requires Monotone(o) && Stopped(root, delays, o, w) && w.snap.state.InProgress? && w.snap.state.position.AtDelay?
    ensures var (hold, w') := ResolveParked(o, w); TimedOn(root, delays, o, hold, w')
  {
    hide Stopped, Guard, SaveOrFail, CompleteAtWait, TaskResult;
    var p := w.snap.state.position;
    TimedGuard(root, delays, o, Some(p.delayId), w);
    var w1 := Guard(o, Some(p.delayId), w).1;
    var output := TaskResult(w1.snap, p.delayId);
    TimedFinish(root, delays, o, if output.Some? then output.value else [], w1.snap, w1);
    if p.nextTaskId.Some? {
      TimedMove(root, delays, o, MoveTo(w1, AtTask(p.nextTaskId.value)).snap, w1);
    }
  }

  lemma TimedResolveFork(root: Cont, delays: bool, o: Oracle, w: World)
    requires Monotone(o) && Stopped(root, delays, o, w) && w.snap.state.InProgress? && w.snap.state.position.AtFork?
    ensures var (hold, w') := ResolveParked(o, w); TimedOn(root, delays, o, hold, w')
  {
    hide Stopped, Guard, SaveOrFail;
    var p := w.snap.state.position;
    TimedGuard(root, delays, o, Some(p.forkId), w);
    var w1 := Guard(o, Some(p.forkId), w).1;
    TimedMove(root, delays, o, w1.snap, w1);
  }

  lemma TimedResolveSignal(root: Cont, delays: bool, o: Oracle, w: World)
    requires Monotone(o) && Stopped(root, delays, o, w) && w.snap.state.InProgress? && w.snap.state.position.AtSignal?
    ensures var (hold, w') := ResolveParked(o, w); TimedOn(root, delays, o, hold, w')
  {
    hide Stopped, Guard, AnswerSignal;
    var p := w.snap.state.position;
    TimedGuard(root, delays, o, Some(p.signalId), w);
    var w1 := Guard(o, Some(p.signalId), w).1;
    TimedTick(root, delays, o, w1);
    var w2 := w1.(tick := w1.tick + 1);
    TimedAnswer(root, delays, o, p, [], w2);
    if o.mail(w1.tick, p.signalName).Delivered? {
      TimedAnswer(root, delays, o, p, o.mail(w1.tick, p.signalName).payload, w2);
    }
  }

  lemma TimedFinalize(root: Cont, delays: bool, o: Oracle, r: ExecResult, w: World)
    requires Monotone(o) && Stopped(root, delays, o, w)
    ensures Stopped(root, delays, o, Finalize(o, r, w))
  {
    hide Stopped, Checkpoint, Timed;
    TimedEnd(root, delays, o, MarkFailed(w.snap), w);
    if r.Ok? {
      TimedEnd(root, delays, o, MarkCompleted(w.snap, r.value), w);
    }
  }

  lemma TimedUnpause(root: Cont, delays: bool, o: Oracle, w: World)
    requires Monotone(o) && Stopped(root, delays, o, w)
    ensures Stopped(root, delays, o, w.(snap := w.saved))
    ensures w.saved.state.Paused? ==> Stopped(root, delays, o, Checkpoint(o, w.(snap := MarkUnpaused(w.saved))).1)
  {
    hide TimedAll, Timed, CallsBy, Checkpoint;
    TimedEnd(root, delays, o, MarkUnpaused(w.saved), w);
  }

  lemma TimesRest(env: Env, o: Oracle, root: Cont, delays: bool)
    requires Monotone(o)
    ensures
      KeptBetween(Setting(env, o, root, TimeLaw(root, delays, o), delays), w => Stopped(root, delays, o, w))
  {
    hide Monotone, Stopped, Going, Checkpoint, ResolveParked, Finalize;
    var k, rest := Setting(env, o, root, TimeLaw(root, delays, o), delays), w => Stopped(root, delays, o, w);
    GoingStops(root, delays, o);
    forall w | rest(w) ensures rest(w.(snap := w.saved)) {
      TimedUnpause(root, delays, o, w);
    }
    forall w | rest(w) && w.snap == w.saved && w.saved.state.InProgress?
      ensures var (hold, w') := ResolveParked(o, w); if hold.None? then k.law(0, None, w') else rest(w')
    {
      TimedResolve(root, delays, o, w);
    }
    forall r, w | k.law(0, StopOf(r), w) ensures rest(Finalize(o, r, w)) {
      TimedFinalize(root, delays, o, r, w);
    }
    forall w | rest(w) && w.saved.state.Paused? ensures rest(Checkpoint(o, w.(snap := MarkUnpaused(w.saved))).1) {
      TimedUnpause(root, delays, o, w);
    }
  }

  lemma HistoryTimed(env: Env, o: Oracle, c: Cont, x: Bytes, actions: seq<Action>, delays: bool)
    requires Monotone(o) && (delays ==> NoDelayInFork(c, false))
    ensures TimedAll(c, delays, History(env, o, c, x, actions).trace)
  {
    var k := Setting(env, o, c, TimeLaw(c, delays, o), delays);
    assert Going(c, delays, o, Created(c, x));
    TimesKept(env, o, c, delays);
    TimesRest(env, o, c, delays);
    hide History, Kept, KeptBetween, TimedAll, NoDelayInFork;
    HistoryRests(k, w => Stopped(c, delays, o, w), x, actions);
  }

  // ----- how long waits last -----

  /** A delay saved at `i`: everything before was called by its start, everything after only once it is over. */
  ghost predicate DelayLasts(c: Cont, trace: seq<Event>, i: nat)
    requires i < |trace| && trace[i].Saved? && Parked(trace[i].snapshot)
  {
    var p := trace[i].snapshot.state.position;
    exists n, span ::
      && Inside(n, c) && n.Delay? && n.id == p.delayId && Lasts(span, n.duration)
      && (forall h :: 0 <= h < i && trace[h].Called? ==> trace[h].at <= p.enteredAt)
      && (forall j :: i < j < |trace| && trace[j].Called? ==> p.enteredAt + span <= trace[j].at)
  }

  /** Delays last: between the calls before and after a delay lies at least its node's duration. */
  lemma DelaysLast(env: Env, o: Oracle, c: Cont, x: Bytes, actions: seq<Action>, i: nat)
    requires Monotone(o) && NoDelayInFork(c, false)
    requires
      var trace := History(env, o, c, x, actions).trace;
      i < |trace| && trace[i].Saved? && Parked(trace[i].snapshot)
    ensures DelayLasts(c, History(env, o, c, x, actions).trace, i)
  {
    hide History, NoDelayInFork, Inside, Monotone;
    HistoryTimed(env, o, c, x, actions, true);
    PositionsBelong(env, o, c, x, actions);
    DelaysAreRespected(env, o, c, x, actions);
    var trace := History(env, o, c, x, actions).trace;
    var p := trace[i].snapshot.state.position;
    assert TimedAt(c, true, trace[..i], trace[i].snapshot) && PlacedAt(c, trace[i].snapshot);
    var n :| DelayNode(c, n, p);
    assert Lasts(p.wakeAt - p.enteredAt, n.duration);
    assert forall h :: 0 <= h < i ==> trace[..i][h] == trace[h];
  }

  /** A deadline saved at `i` is at least the node's timeout after everything called before. */
  ghost predicate DeadlineLasts(c: Cont, trace: seq<Event>, i: nat, p: Position)
    requires i < |trace| && p.AtSignal? && p.deadline.Some?
  {
    exists n, span ::
      && SignalNode(c, n, p) && Lasts(span, n.timeout.value)
      && (forall h :: 0 <= h < i && trace[h].Called? ==> trace[h].at + span <= p.deadline.value)
  }

  /** Deadlines are timeouts, in any tree. */
  lemma DeadlinesLast(env: Env, o: Oracle, c: Cont, x: Bytes, actions: seq<Action>, i: nat)
    requires Monotone(o)
    requires
      var trace := History(env, o, c, x, actions).trace;
      && i < |trace| && trace[i].Saved?
      && (trace[i].snapshot.state.InProgress? || trace[i].snapshot.state.Paused?)
      && trace[i].snapshot.state.position.AtSignal? && trace[i].snapshot.state.position.deadline.Some?
    ensures
      var trace := History(env, o, c, x, actions).trace;
      DeadlineLasts(c, trace, i, trace[i].snapshot.state.position)
  {
    hide History, Inside, Monotone;
    HistoryTimed(env, o, c, x, actions, false);
    var trace := History(env, o, c, x, actions).trace;
    var p := trace[i].snapshot.state.position;
    assert TimedAt(c, false, trace[..i], trace[i].snapshot);
    var t :| Since(c, p, t) && CallsBy(trace[..i], t);
    var n :| SignalNode(c, n, p) && Lasts(p.deadline.value - t, n.timeout.value);
    assert forall h :: 0 <= h < i ==> trace[..i][h] == trace[h];
  }
}
