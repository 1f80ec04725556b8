/**
 Once a delay has parked, nothing at all is called before its recorded wake time, whatever crashes,
 early resumes, pauses and unpauses happen in between.
 */
module DelaySafety {
  import opened Prelude
  import opened Continuation
  import opened Semantics
  import opened Snapshots
  import opened Durable
  import opened DurableResume
  import opened Lifecycle
  import opened Parts
  import opened Walks

  /** The clock never runs backwards. */
  ghost predicate Monotone(o: Oracle) {
    forall s: nat, t: nat :: s <= t ==> o.clock(s) <= o.clock(t)
  }

  /** The snapshot is parked at a delay, or was when it was paused. */
  predicate Parked(s: Snapshot) {
    (s.state.InProgress? || s.state.Paused?) && s.state.position.AtDelay?
  }

  function WakeTime(s: Snapshot): int
    requires Parked(s)
  {
    s.state.position.wakeAt
  }

  /** No call in the history follows the save of a park whose wake time it precedes. */
  ghost predicate RespectsDelays(trace: seq<Event>) {
    forall i, j :: 0 <= i < j < |trace| && trace[i].Saved? && Parked(trace[i].snapshot) && trace[j].Called? ==>
      WakeTime(trace[i].snapshot) <= trace[j].at
  }

  /** All parks in the history have wake times up to `t`. */
  ghost predicate Awake(trace: seq<Event>, t: int) {
    forall i :: 0 <= i < |trace| && trace[i].Saved? && Parked(trace[i].snapshot) ==> WakeTime(trace[i].snapshot) <= t
  }

  /** The time until which the store says to wait; at least `t`. */
  function Alarm(s: Snapshot, t: int): int {
    if Parked(s) && WakeTime(s) > t then WakeTime(s) else t
  }

  /** A walk may make calls: every recorded wake time has passed. */
  ghost predicate Running(o: Oracle, w: World) {
    && w.snap.state.InProgress? && RespectsDelays(w.trace)
    && Awake(w.trace, o.clock(w.tick))
    && (Parked(w.snap) ==> WakeTime(w.snap) <= o.clock(w.tick))
    && (Parked(w.saved) ==> WakeTime(w.saved) <= o.clock(w.tick))
  }

  /** Between attempts: the store itself still carries the latest wake time. */
  ghost predicate Sleeping(o: Oracle, w: World) {
    && RespectsDelays(w.trace)
    && (w.saved.state.InProgress? || w.saved.state.Paused? ==> Awake(w.trace, Alarm(w.saved, o.clock(w.tick))))
  }

  /** Either the walk goes on, or the attempt is over. */
  ghost predicate Safe(o: Oracle, goesOn: bool, w: World) {
    if goesOn then Running(o, w) else Sleeping(o, w)
  }

  lemma RunningSleeps(o: Oracle, w: World)
    requires Running(o, w)
    ensures Sleeping(o, w)
  {
  }

  lemma AwakeLater(trace: seq<Event>, t: int, t': int)
    requires Awake(trace, t) && t <= t'
    ensures Awake(trace, t')
  {
  }

  lemma RunningTick(o: Oracle, w: World, t: nat)
    requires Monotone(o) && Running(o, w) && w.tick <= t
    ensures Running(o, w.(tick := t))
  {
    AwakeLater(w.trace, o.clock(w.tick), o.clock(t));
  }

  /** Saving a snapshot whose own wake time, if any, has passed. */
  lemma RunningStore(o: Oracle, w: World, s: Snapshot)
    requires Running(o, w) && (Parked(s) ==> WakeTime(s) <= o.clock(w.tick))
    ensures Running(o, Store(w, s))
  {
  }

  lemma SafeGuard(o: Oracle, scope: Option<string>, w: World)
    requires Monotone(o) && Running(o, w)
    ensures var w' := Guard(o, scope, w).1; Running(o, w') && w'.snap == w.snap && w.tick <= w'.tick
  {
    hide RespectsDelays, Awake;
    var w1 := w.(tick := w.tick + 1);
    RunningTick(o, w, w.tick + 1);
    if w.saved.state.InProgress? {
      RunningStore(o, w1, MarkPaused(w.saved));
      RunningStore(o, w1, MarkCancelled(w.saved, scope));
    }
  }

  lemma SafeSave(o: Oracle, w: World)
    requires Monotone(o) && Running(o, w)
    ensures var w' := Checkpoint(o, w).1; Running(o, w') && w'.snap == w.snap
  {
    hide RespectsDelays, Awake;
    RunningTick(o, w, w.tick + 1);
    RunningStore(o, w.(tick := w.tick + 1), w.snap);
  }

  lemma SafeCall(env: Env, o: Oracle, id: string, x: Bytes, keyFn: bool, w: World)
    requires Monotone(o) && Running(o, w)
    ensures var w' := CallTask(env, o, id, x, keyFn, w).1; Running(o, w')
  {
    RunningTick(o, w, w.tick + 1);
    RunningCall(o, w, Called(id, x, keyFn, o.clock(w.tick)));
  }

  lemma RunningCall(o: Oracle, w: World, e: Event)
    requires Monotone(o) && Running(o, w) && e.Called? && e.at == o.clock(w.tick)
    ensures Running(o, w.(tick := w.tick + 1, trace := w.trace + [e]))
  {
    RunningTick(o, w, w.tick + 1);
  }

  /** Recording results and moving anywhere but to a delay. */
  lemma SafeEdit(o: Oracle, w: World, s: Snapshot)
    requires Running(o, w) && s.state.InProgress?
    requires s.state.position == w.snap.state.position || !s.state.position.AtDelay?
    ensures Running(o, w.(snap := s))
  {
    hide RespectsDelays, Awake;
  }

  lemma SafeRecord(o: Oracle, id: string, v: Bytes, w: World)
    requires Monotone(o) && Running(o, w)
    ensures Running(o, Record(o, id, v, w).1)
  {
    hide RespectsDelays, Awake, Running, Checkpoint;
    RunningInProgress(o, w);
    SafeEdit(o, w, MarkTaskCompleted(w.snap, id, v));
    SafeSave(o, Mark(w, id, v));
  }

  lemma RunningInProgress(o: Oracle, w: World)
    requires Running(o, w)
    ensures w.snap.state.InProgress?
  {
  }

  lemma SafeRecordStep(o: Oracle, c: Cont, v: Bytes, w: World)
    requires Monotone(o) && Running(o, w)
    ensures Running(o, RecordStep(o, c, v, w).1)
  {
    hide RespectsDelays, Awake, Running, Checkpoint;
    RunningInProgress(o, w);
    var w1 := Mark(w, c.id, v);
    var w2 := if Next(c).Some? then MoveTo(w1, AtTask(FirstTaskId(Next(c).value))) else w1;
    SafeEdit(o, w, w2.snap);
    SafeSave(o, w2);
  }

  /** Parking at a delay ends the attempt, with the wake time in the store. */
  lemma SafePark(o: Oracle, c: Cont, x: Bytes, w: World)
    requires Monotone(o) && Running(o, w) && c.Delay?
    ensures var (r, w') := ParkAtDelay(o, c, x, w); r.Err? && Sleeping(o, w')
  {
    hide SuccessorId, Span;
    var now := o.clock(w.tick);
    var w1 := Mark(MoveTo(w, AtDelay(c.id, now, now + Span(c.duration), SuccessorId(c))), c.id, x);
    RunningTick(o, w, w.tick + 1);
    ParkStored(o, w.(tick := w.tick + 1), w1.snap);
    RunningSleeps(o, w.(tick := w.tick + 1));
    hide Running, RespectsDelays, Awake;
    var (s, w2) := Checkpoint(o, w1);
    assert w2 == w1.(tick := w.tick + 1) || w2 == Store(w.(tick := w.tick + 1), w1.snap).(snap := w1.snap);
  }

  lemma ParkStored(o: Oracle, w: World, s: Snapshot)
    requires Running(o, w) && s.state.InProgress? && Parked(s)
    ensures Sleeping(o, Store(w, s))
  {
    var w' := Store(w, s);
    AwakeLater(w.trace, o.clock(w.tick), Alarm(s, o.clock(w.tick)));
  }

  lemma SafeSignal(o: Oracle, c: Cont, w: World)
    requires Monotone(o) && Running(o, w) && c.AwaitSignal?
    ensures Running(o, ParkAtSignal(o, c, w).1)
  {
    hide RespectsDelays, Awake, Running, Checkpoint;
    RunningInProgress(o, w);
    var deadline := if c.timeout.Some? then Some(o.clock(w.tick) + Span(c.timeout.value)) else None;
    var w1 := MoveTo(w, AtSignal(c.id, c.signalName, deadline, SuccessorId(c)));
    SafeEdit(o, w, w1.snap);
    SafeSave(o, w1);
  }

  lemma SafeFinish(env: Env, o: Oracle, c: Cont, results: seq<(string, Bytes)>, wake: int, w: World)
    requires Monotone(o) && Running(o, w) && c.Fork?
    ensures Running(o, FinishFork(env, o, c, results, Some(wake), w).1)
  {
    hide RespectsDelays, Awake, Running, Checkpoint, ToMap;
    RunningInProgress(o, w);
    var w1 := MoveTo(w, AtFork(c.id, ToMap(results), wake));
    SafeEdit(o, w, w1.snap);
    SafeSave(o, w1);
  }

  lemma SafeIteration(o: Oracle, c: Cont, i: nat, w: World)
    requires Monotone(o) && c.Loop? && Running(o, w)
    ensures Running(o, NextIteration(o, c, i, w).1)
  {
    hide Running, Monotone, Checkpoint;
    RunningInProgress(o, w);
    var snap := UpdatePosition(SetLoopIteration(w.snap, c.id, i), InLoop(c.id, i, Some(FirstTaskId(c.body))));
    SafeEdit(o, w, snap);
    SafeSave(o, w.(snap := snap));
  }

  lemma SafeDrop(o: Oracle, w: World, ids: set<string>, id: string)
    requires Running(o, w)
    ensures Running(o, w.(snap := RemoveTaskResults(w.snap, ids)))
    ensures Running(o, w.(snap := ClearLoopIteration(w.snap, id)))
  {
    hide RespectsDelays, Awake;
    SafeEdit(o, w, RemoveTaskResults(w.snap, ids));
    SafeEdit(o, w, ClearLoopIteration(w.snap, id));
  }

  /** While a walk goes on it may make calls; once it has stopped the store knows how long to wait. */
  ghost function DelayLaw(o: Oracle): Law {
    (alarm, stop: Option<Stop>, w) => if stop.None? then Running(o, w) else Sleeping(o, w)
  }

  lemma DelaysKept(env: Env, o: Oracle, root: Cont)
    requires Monotone(o)
    ensures Kept(Setting(env, o, root, DelayLaw(o), true))
  {
    hide Running, Sleeping, Monotone, Guard, CallTask, Record, RecordStep, ParkAtDelay, ParkAtSignal, FinishFork,
      NextIteration, Inside;
    var law := DelayLaw(o);
    forall w | Running(o, w) ensures Sleeping(o, w) {
      RunningSleeps(o, w);
    }
    forall a, scope, w | law(a, None, w) ensures law(a, Guard(o, scope, w).0, Guard(o, scope, w).1) {
      SafeGuard(o, scope, w);
    }
    forall a, id, x, keyFn, w | law(a, None, w) ensures law(a, None, CallTask(env, o, id, x, keyFn, w).1) {
      SafeCall(env, o, id, x, keyFn, w);
    }
    forall a, w, t | law(a, None, w) && t == w.tick + 1 ensures law(a, None, w.(tick := t)) {
      RunningTick(o, w, t);
    }
    assert KeptByRecords(o, root, law) by {
      forall a, id, v, w | law(a, None, w) ensures law(a, StopOf(Record(o, id, v, w).0), Record(o, id, v, w).1) {
        SafeRecord(o, id, v, w);
      }
      forall a, c, v, w | law(a, None, w) ensures law(a, StopOf(RecordStep(o, c, v, w).0), RecordStep(o, c, v, w).1) {
        SafeRecordStep(o, c, v, w);
      }
    }
    assert KeptByParks(env, o, root, law) by {
      forall a, c: Cont, x, w | law(a, None, w) && c.Delay?
        ensures law(a, StopOf(ParkAtDelay(o, c, x, w).0), ParkAtDelay(o, c, x, w).1)
      {
        SafePark(o, c, x, w);
      }
      forall a, c: Cont, w | law(a, None, w) && c.AwaitSignal?
        ensures law(a, StopOf(ParkAtSignal(o, c, w).0), ParkAtSignal(o, c, w).1)
      {
        SafeSignal(o, c, w);
      }
      forall a, c: Cont, results, wake, w | law(Max(a, wake), None, w) && c.Fork?
        ensures var (r, w') := FinishFork(env, o, c, results, Some(wake), w); law(a, StopOf(r), w')
      {
        SafeFinish(env, o, c, results, wake, w);
      }
    }
    assert KeptByLoops(o, root, law) by {
      forall a, w, ids | law(a, None, w) ensures law(a, None, w.(snap := RemoveTaskResults(w.snap, ids))) {
        SafeDrop(o, w, ids, "");
      }
      forall a, w, id | law(a, None, w) ensures law(a, None, w.(snap := ClearLoopIteration(w.snap, id))) {
        SafeDrop(o, w, {}, id);
      }
      forall a, c: Cont, i: nat, w | law(a, None, w) && c.Loop?
        ensures law(a, NextIteration(o, c, i, w).0, NextIteration(o, c, i, w).1)
      {
        SafeIteration(o, c, i, w);
      }
    }
  }

  // ----- whole histories -----

  lemma SleepingTick(o: Oracle, w: World, t: nat)
    requires Monotone(o) && Sleeping(o, w) && w.tick <= t
    ensures Sleeping(o, w.(tick := t))
  {
    if w.saved.state.InProgress? || w.saved.state.Paused? {
      AwakeLater(w.trace, Alarm(w.saved, o.clock(w.tick)), Alarm(w.saved, o.clock(t)));
    }
  }

  /** Writing a terminal snapshot, or one parked like the stored one. */
  lemma SleepingStore(o: Oracle, w: World, s: Snapshot)
    requires Sleeping(o, w)
    requires s.state.InProgress? || s.state.Paused? ==>
      (w.saved.state.InProgress? || w.saved.state.Paused?) && s.state.position == w.saved.state.position
    ensures Sleeping(o, Store(w, s))
  {
    var w' := Store(w, s);
    if s.state.InProgress? || s.state.Paused? {
      assert Alarm(s, o.clock(w.tick)) == Alarm(w.saved, o.clock(w.tick));
    }
  }

  lemma SleepingSave(o: Oracle, w: World)
    requires Monotone(o) && Sleeping(o, w)
    requires w.snap.state.InProgress? || w.snap.state.Paused? ==>
      (w.saved.state.InProgress? || w.saved.state.Paused?) && w.snap.state.position == w.saved.state.position
    ensures Sleeping(o, Checkpoint(o, w).1)
  {
    hide Sleeping;
    SleepingTick(o, w, w.tick + 1);
    SleepingStore(o, w.(tick := w.tick + 1), w.snap);
  }

  lemma SleepingGuard(o: Oracle, scope: Option<string>, w: World)
    requires Monotone(o) && Sleeping(o, w)
    ensures var (g, w') := Guard(o, scope, w); Sleeping(o, w') && w'.snap == w.snap
  {
    hide Sleeping;
    SleepingTick(o, w, w.tick + 1);
    if w.saved.state.InProgress? {
      SleepingStore(o, w.(tick := w.tick + 1), MarkPaused(w.saved));
      SleepingStore(o, w.(tick := w.tick + 1), MarkCancelled(w.saved, scope));
    }
  }

  /** Past its wake time, a loaded snapshot may run. */
  lemma Wakes(o: Oracle, w: World)
    requires Sleeping(o, w) && w.snap == w.saved && w.saved.state.InProgress?
    requires Parked(w.saved) ==> WakeTime(w.saved) <= o.clock(w.tick)
    ensures Running(o, w)
  {
    assert Alarm(w.saved, o.clock(w.tick)) == o.clock(w.tick);
  }

  /** Memory does not matter between attempts. */
  lemma SleepingSnap(o: Oracle, w: World, s: Snapshot)
    requires Sleeping(o, w)
    ensures Sleeping(o, w.(snap := s))
  {
  }

  lemma SafeAnswer(o: Oracle, p: Position, payload: Bytes, w: World)
    requires Monotone(o) && Running(o, w) && p.AtSignal?
    ensures var (hold, w1) := AnswerSignal(o, p, payload, w); Safe(o, hold.None?, w1)
  {
    hide Running, Sleeping, Monotone, Checkpoint;
    RunningInProgress(o, w);
    var w1 := Mark(w, p.signalId, payload);
    if p.nextTaskId.Some? {
      var w2 := MoveTo(w1, AtTask(p.nextTaskId.value));
      SafeEdit(o, w, w2.snap);
      SafeSave(o, w2);
      RunningSleeps(o, Checkpoint(o, w2).1);
    } else {
      var w2 := w1.(snap := MarkCompleted(w1.snap, payload));
      RunningSleeps(o, w);
      SleepingSnap(o, w, w2.snap);
      SleepingSave(o, w2);
    }
  }

  lemma SafeResolve(o: Oracle, w: World)
    requires Monotone(o) && Sleeping(o, w) && w.snap == w.saved && w.saved.state.InProgress?
    ensures var (hold, w1) := ResolveParked(o, w); Safe(o, hold.None?, w1)
  {
    hide Running, Sleeping, Monotone, Guard, Checkpoint, AnswerSignal;
    var p := w.snap.state.position;
    if p.AtDelay? {
      SafeResolveDelay(o, w);
    } else {
      Wakes(o, w);
      RunningSleeps(o, w);
      if p.AtFork? || p.AtSignal? {
        var scope := Some(if p.AtFork? then p.forkId else p.signalId);
        SafeGuard(o, scope, w);
        var (g, w1) := Guard(o, scope, w);
        RunningSleeps(o, w1);
        if g.None? {
          if p.AtFork? {
            SafeSave(o, w1);
            RunningSleeps(o, Checkpoint(o, w1).1);
          } else {
            var w2 := w1.(tick := w1.tick + 1);
            RunningTick(o, w1, w1.tick + 1);
            RunningSleeps(o, w2);
            SafeAnswer(o, p, [], w2);
            if o.mail(w1.tick, p.signalName).Delivered? {
              SafeAnswer(o, p, o.mail(w1.tick, p.signalName).payload, w2);
            }
          }
        }
      }
    }
  }

  lemma SafeResolveDelay(o: Oracle, w: World)
    requires Monotone(o) && Sleeping(o, w) && w.snap == w.saved && w.saved.state.InProgress?
    requires w.snap.state.position.AtDelay?
    ensures var (hold, w1) := ResolveParked(o, w); Safe(o, hold.None?, w1)
  {
    hide Running, Sleeping, Monotone, Guard, Checkpoint;
    var p := w.snap.state.position;
    SleepingGuard(o, Some(p.delayId), w);
    GuardEffect(o, Some(p.delayId), w);
    var (g, w1) := Guard(o, Some(p.delayId), w);
    if g.None? && o.clock(w1.tick) >= p.wakeAt {
      Wakes(o, w1);
      if p.nextTaskId.Some? {
        var w2 := MoveTo(w1, AtTask(p.nextTaskId.value));
        SafeEdit(o, w1, w2.snap);
        SafeSave(o, w2);
        RunningSleeps(o, Checkpoint(o, w2).1);
      } else {
        var output := TaskResult(w1.snap, p.delayId);
        var w2 := w1.(snap := MarkCompleted(w1.snap, if output.Some? then output.value else []));
        SleepingSnap(o, w1, w2.snap);
        SleepingSave(o, w2);
      }
    }
  }

  lemma SafeFinalize(o: Oracle, r: ExecResult, w: World)
    requires Monotone(o) && Sleeping(o, w)
    ensures Sleeping(o, Finalize(o, r, w))
  {
    hide Sleeping, Monotone, Checkpoint;
    var ended := if r.Ok? then MarkCompleted(w.snap, r.value) else MarkFailed(w.snap);
    SleepingSnap(o, w, ended);
    SleepingSave(o, w.(snap := ended));
  }

  lemma SafeUnpause(o: Oracle, w: World)
    requires Monotone(o) && Sleeping(o, w) && w.saved.state.Paused?
    ensures Sleeping(o, Checkpoint(o, w.(snap := MarkUnpaused(w.saved))).1)
  {
    hide Sleeping, Monotone, Checkpoint;
    SleepingSnap(o, w, MarkUnpaused(w.saved));
    SleepingSave(o, w.(snap := MarkUnpaused(w.saved)));
  }

  lemma HistorySleeps(env: Env, o: Oracle, c: Cont, x: Bytes, actions: seq<Action>)
    requires Monotone(o) && NoDelayInFork(c, false)
    ensures Sleeping(o, History(env, o, c, x, actions))
  {
    var k, rest := Setting(env, o, c, DelayLaw(o), true), w => Sleeping(o, w);
    assert Running(o, Created(c, x));
    DelaysKept(env, o, c);
    hide Running, Sleeping, Monotone, Kept, Checkpoint, ResolveParked, Finalize, NoDelayInFork, History;
    assert KeptBetween(k, rest) by {
      forall w | Sleeping(o, w) ensures Sleeping(o, w.(snap := w.saved)) {
        SleepingSnap(o, w, w.saved);
      }
      forall w | Running(o, w) ensures Sleeping(o, w) {
        RunningSleeps(o, w);
      }
      forall w | rest(w) && w.snap == w.saved && w.saved.state.InProgress?
        ensures var (hold, w') := ResolveParked(o, w); Safe(o, hold.None?, w')
      {
        SafeResolve(o, w);
      }
      forall r, w | k.law(0, StopOf(r), w) ensures rest(Finalize(o, r, w)) {
        SafeFinalize(o, r, w);
      }
      forall w | rest(w) && w.saved.state.Paused? ensures rest(Checkpoint(o, w.(snap := MarkUnpaused(w.saved))).1) {
        SafeUnpause(o, w);
      }
    }
    HistoryRests(k, rest, x, actions);
  }

  /** Delay safety: over every history, no call precedes the wake time of a delay parked before it. */
  lemma DelaysAreRespected(env: Env, o: Oracle, c: Cont, x: Bytes, actions: seq<Action>)
    requires Monotone(o) && NoDelayInFork(c, false)
    ensures RespectsDelays(History(env, o, c, x, actions).trace)
  {
    HistorySleeps(env, o, c, x, actions);
  }
}
