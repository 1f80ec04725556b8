/**
 Waits for signals: a parked instance stays parked until it is sent a payload or its deadline has passed, and
 goes on with exactly what ended the wait.
 */
module Waits {
  import opened Prelude
  import opened Continuation
  import opened Semantics
  import opened Snapshots
  import opened Durable
  import opened Lifecycle
  import opened Parts
  import opened Walks
  import opened DelaySafety
  import opened Growth
  import opened Endings

  /** The stored snapshot waits for a signal, possibly while it is paused. */
  predicate AtWait(s: Snapshot) {
    (s.state.InProgress? || s.state.Paused?) && s.state.position.AtSignal?
  }

  /** The wait goes on: its position and results are as before. */
  predicate StillWaits(s: Snapshot, s': Snapshot)
    requires AtWait(s)
  {
    AtWait(s') && s'.state.position == s.state.position && s'.state.completed == s.state.completed
  }

  /** The wait was cancelled. */
  predicate WaitCancelled(s: Snapshot, s': Snapshot)
    requires AtWait(s)
  {
    s'.state == Cancelled(s.state.completed, Some(s.state.position.signalId))
  }

  /** The wait ended with `v`: it is recorded for the signal, or the result if nothing follows. */
  predicate WaitEnded(s: Snapshot, v: Bytes, s': Snapshot)
    requires AtWait(s)
  {
    var p := s.state.position;
    if p.nextTaskId.Some? then
      s'.state == InProgress(AtTask(p.nextTaskId.value), s.state.completed[p.signalId := v], Some(p.signalId))
    else
      s'.state == Completed(v)
  }

  /** What is read at the wait from step `from` on: `v` is delivered, or nothing is and the deadline has passed. */
  predicate Justified(o: Oracle, p: Position, v: Bytes, from: nat)
    requires p.AtSignal?
  {
    || o.mail(from + 1, p.signalName) == Delivered(v)
    || (o.mail(from + 1, p.signalName).NoMail? && v == [] && p.deadline.Some? && p.deadline.value <= o.clock(from + 2))
  }

  /** The answer `v` was saved before anything else happened, and calls were made only afterwards. */
  ghost predicate AnsweredFirst(o: Oracle, v: Bytes, w: World, w': World)
    requires AtWait(w.saved)
  {
    var n := |w.trace|;
    && |w'.trace| > n && w'.trace[..n] == w.trace && w'.trace[n].Saved? && w.tick + 2 < w'.tick
    && WaitEnded(w.saved, v, w'.trace[n].snapshot) && Justified(o, w.saved.state.position, v, w.tick)
    && forall i :: n <= i < |w'.trace| && w'.trace[i].Called? ==> MadeAt(o, w'.trace[i], w.tick + 3, w'.tick)
  }

  /** What one action does to a wait: nothing, or it is paused, unpaused or cancelled, or it is answered. */
  ghost predicate WaitMoves(o: Oracle, w: World, w': World)
    requires AtWait(w.saved)
  {
    || (w'.trace == w.trace && w'.saved == w.saved)
    || (w'.trace == w.trace + [Saved(w'.saved)] && (StillWaits(w.saved, w'.saved) || WaitCancelled(w.saved, w'.saved)))
    || exists v :: AnsweredFirst(o, v, w, w')
  }

  // ----- one action -----

  /** Saving the answer is the first thing that happens, if the save does anything. */
  lemma AnswerMoves(o: Oracle, v: Bytes, w: World, w1: World)
    requires AtWait(w.saved) && w.saved.state.InProgress? && w1 == w.(snap := w.saved, tick := w.tick + 2)
    requires Justified(o, w.saved.state.position, v, w.tick)
    ensures
      var (hold, w2) := AnswerSignal(o, w.saved.state.position, v, w1);
      WaitMoves(o, w, w2) && w2.tick == w.tick + 3 && (hold.None? ==> AnsweredFirst(o, v, w, w2))
  {
    var p := w.saved.state.position;
    var (hold, w2) := AnswerSignal(o, p, v, w1);
    if w2.trace != w.trace {
      assert w2.trace[..|w.trace|] == w.trace;
      assert WaitEnded(w.saved, v, w2.trace[|w.trace|].snapshot);
      assert AnsweredFirst(o, v, w, w2);
    }
  }

  lemma GuardMoves(o: Oracle, w: World)
    requires AtWait(w.saved) && w.saved.state.InProgress?
    ensures
      var p := w.saved.state.position;
      var (g, w1) := Guard(o, Some(p.signalId), w.(snap := w.saved));
      && w1.tick == w.tick + 1 && w1.snap == w.saved && WaitMoves(o, w, w1)
      && (g.None? ==> w1 == w.(snap := w.saved, tick := w.tick + 1))
  {
  }

  /** What one resume, or one unpause, does to a wait. */
  lemma WaitStep(env: Env, o: Oracle, c: Cont, a: Action, w: World)
    requires AtWait(w.saved)
    ensures WaitMoves(o, w, Perform(env, o, c, a, w)) && w.tick <= Perform(env, o, c, a, w).tick
  {
    if a.Resume? && w.saved.state.InProgress? {
      ResumeMoves(env, o, c, w);
    }
  }

  lemma ResumeMoves(env: Env, o: Oracle, c: Cont, w: World)
    requires AtWait(w.saved) && w.saved.state.InProgress?
    ensures var w' := Attempt(env, o, c, w).1; WaitMoves(o, w, w') && w.tick <= w'.tick
  {
    hide Walk, Guard, AnswerSignal, WaitMoves;
    var p, w0 := w.saved.state.position, w.(snap := w.saved);
    GuardMoves(o, w);
    var (g, w1) := Guard(o, Some(p.signalId), w0);
    if g.None? {
      var w2 := w1.(tick := w1.tick + 1);
      Unmoved(o, w, w2);
      var mail := o.mail(w1.tick, p.signalName);
      var timeout := mail.NoMail? && p.deadline.Some? && o.clock(w2.tick) >= p.deadline.value;
      if mail.Delivered? || timeout {
        var v := if mail.Delivered? then mail.payload else [];
        AnswerMoves(o, v, w, w2);
        var (hold, w3) := AnswerSignal(o, p, v, w2);
        if hold.None? && ResumeInput(w3.snap).Some? {
          WalkGrows(env, o, c, ResumeInput(w3.snap).value, w3);
          AnswerStays(o, v, w, w3, Walk(env, o, c, ResumeInput(w3.snap).value, w3).1);
        }
      }
    }
  }

  lemma Unmoved(o: Oracle, w: World, w': World)
    requires AtWait(w.saved) && w'.trace == w.trace && w'.saved == w.saved
    ensures WaitMoves(o, w, w')
  {
  }

  /** What follows the answer does not change that it came first. */
  lemma AnswerStays(o: Oracle, v: Bytes, w: World, w1: World, w2: World)
    requires AtWait(w.saved) && w1.tick == w.tick + 3 && Grown(o, w1, w2) && AnsweredFirst(o, v, w, w1)
    ensures WaitMoves(o, w, w2)
  {
    var n := |w.trace|;
    assert w2.trace[n] == w2.trace[..|w1.trace|][n] == w1.trace[n];
    assert w2.trace[..n] == w2.trace[..|w1.trace|][..n] == w.trace;
    assert forall i :: 0 <= i < |w1.trace| ==> w2.trace[i] == w2.trace[..|w1.trace|][i] == w1.trace[i];
    assert forall i :: |w1.trace| <= i < |w2.trace| && w2.trace[i].Called? ==>
      MadeAt(o, w2.trace[i], w.tick + 3, w2.tick);
    assert AnsweredFirst(o, v, w, w2);
  }

  // ----- whole histories -----

  /** Nothing was called since `w`, and the store waits as it did then, or was cancelled. */
  ghost predicate Held(w: World, w': World)
    requires AtWait(w.saved)
  {
    && |w.trace| <= |w'.trace| && w'.trace[..|w.trace|] == w.trace
    && (StillWaits(w.saved, w'.saved) || WaitCancelled(w.saved, w'.saved))
    && forall i :: |w.trace| <= i < |w'.trace| ==> w'.trace[i].Saved? && !w'.trace[i].snapshot.state.Completed?
  }

  /** Since `w`, something was delivered for the wait, or its deadline passed before anything was called. */
  ghost predicate Excused(o: Oracle, w: World, w': World)
    requires AtWait(w.saved)
  {
    var p := w.saved.state.position;
    || (exists t: nat :: w.tick <= t < w'.tick && o.mail(t, p.signalName).Delivered?)
    || (&& p.deadline.Some? && p.deadline.value <= o.clock(w'.tick) && |w.trace| <= |w'.trace|
        && forall i :: |w.trace| <= i < |w'.trace| && w'.trace[i].Called? ==> p.deadline.value <= w'.trace[i].at)
  }

  lemma ExcusedStays(o: Oracle, w: World, w1: World, w2: World)
    requires Monotone(o) && AtWait(w.saved) && Excused(o, w, w1) && Grown(o, w1, w2)
    ensures Excused(o, w, w2)
  {
    hide Monotone;
    var p := w.saved.state.position;
    if t: nat :| w.tick <= t < w1.tick && o.mail(t, p.signalName).Delivered? {
      assert t < w2.tick;
    } else {
      ClockGrows(o, w1.tick, w2.tick);
      forall i | |w.trace| <= i < |w2.trace| && w2.trace[i].Called? ensures p.deadline.value <= w2.trace[i].at {
        if i < |w1.trace| {
          assert w2.trace[i] == w2.trace[..|w1.trace|][i] == w1.trace[i];
        } else {
          CallsComeLater(o, w1, w2, i);
        }
      }
    }
  }

  /** The action that ends the wait. */
  lemma HeldEnds(o: Oracle, w: World, w1: World, w2: World, v: Bytes)
    requires Monotone(o) && AtWait(w.saved) && Held(w, w1) && StillWaits(w.saved, w1.saved) && w.tick <= w1.tick
    requires AnsweredFirst(o, v, w1, w2)
    ensures Excused(o, w, w2)
  {
    hide Monotone;
    var p := w.saved.state.position;
    if o.mail(w1.tick + 1, p.signalName).Delivered? {
      assert w.tick <= w1.tick + 1 < w2.tick;
    } else {
      ClockGrows(o, w1.tick + 2, w2.tick);
      assert forall i :: |w.trace| <= i < |w1.trace| ==> w2.trace[i] == w2.trace[..|w1.trace|][i] == w1.trace[i];
      forall i | |w1.trace| <= i < |w2.trace| && w2.trace[i].Called? ensures p.deadline.value <= w2.trace[i].at {
        var t: nat :| w1.tick + 3 <= t < w2.tick && w2.trace[i].at == o.clock(t);
        ClockGrows(o, w1.tick + 2, t);
      }
    }
  }

  lemma HeldMoves(w: World, w1: World, w2: World)
    requires AtWait(w.saved) && Held(w, w1) && StillWaits(w.saved, w1.saved)
    requires
      || (w2.trace == w1.trace && w2.saved == w1.saved)
      || (&& w2.trace == w1.trace + [Saved(w2.saved)]
          && (StillWaits(w1.saved, w2.saved) || WaitCancelled(w1.saved, w2.saved)))
    ensures Held(w, w2)
  {
    if w2.trace != w1.trace {
      assert w2.trace[..|w.trace|] == w1.trace[..|w.trace|];
    }
  }

  lemma HeldStep(env: Env, o: Oracle, c: Cont, a: Action, w: World, w1: World)
    requires Monotone(o) && AtWait(w.saved) && Held(w, w1) && w.tick <= w1.tick
    ensures var w2 := Perform(env, o, c, a, w1); Held(w, w2) || Excused(o, w, w2)
  {
    if StillWaits(w.saved, w1.saved) {
      hide Perform, Monotone, Held, Excused, AnsweredFirst;
      var w2 := Perform(env, o, c, a, w1);
      WaitStep(env, o, c, a, w1);
      if v :| AnsweredFirst(o, v, w1, w2) {
        HeldEnds(o, w, w1, w2, v);
      } else {
        HeldMoves(w, w1, w2);
      }
    }
  }

  /**
   A wait is honoured. After any history that leaves the instance waiting for a signal, and through whatever
   actions follow: nothing is called, nothing completes, and the store waits on with the same results or is
   cancelled; until something is delivered for the signal, or its deadline has passed, before which nothing
   is called either.
   */
  lemma {:induction false} WaitsAreHonoured(
      env: Env, o: Oracle, c: Cont, x: Bytes, actions: seq<Action>, more: seq<Action>)
    requires Monotone(o) && AtWait(History(env, o, c, x, actions).saved)
    ensures
      var w, w' := History(env, o, c, x, actions), History(env, o, c, x, actions + more);
      Held(w, w') || Excused(o, w, w')
    decreases |more|
  {
    var w := History(env, o, c, x, actions);
    if more == [] {
      assert actions + more == actions;
    } else {
      var n := |more| - 1;
      var w1 := History(env, o, c, x, actions + more[..n]);
      assert (actions + more)[..|actions| + n] == actions + more[..n];
      var w' := Perform(env, o, c, more[n], w1);
      assert History(env, o, c, x, actions + more) == w';
      hide History, Perform, Monotone, Held, Excused;
      WaitsAreHonoured(env, o, c, x, actions, more[..n]);
      HistoryGrows(env, o, c, x, actions, more[..n]);
      if Held(w, w1) {
        HeldStep(env, o, c, more[n], w, w1);
      } else {
        PerformGrows(env, o, c, more[n], w1);
        ExcusedStays(o, w, w1, w');
      }
    }
  }

  // ----- every saved wait is left in the store -----

  /** Nothing saved from the event `n` on waits. */
  ghost predicate NoWait(n: nat, trace: seq<Event>) {
    forall i :: n <= i < |trace| && trace[i].Saved? ==> !AtWait(trace[i].snapshot)
  }

  ghost predicate OnTheMove(n: nat, w: World) {
    n <= |w.trace| && w.snap.state.InProgress? && !AtWait(w.snap) && !AtWait(w.saved) && NoWait(n, w.trace)
  }

  /** A wait saved from `n` on is the last event, and in the store. */
  ghost predicate WaitLast(n: nat, w: World) {
    && n <= |w.trace|
    && forall i :: n <= i < |w.trace| && w.trace[i].Saved? && AtWait(w.trace[i].snapshot) ==>
         i == |w.trace| - 1 && w.saved == w.trace[i].snapshot
  }

  ghost function WaitLaw(n: nat): Law {
    (alarm, stop: Option<Stop>, w) =>
      if stop.None? || stop.value.Waiting? then OnTheMove(n, w) else WaitLast(n, w)
  }

  lemma MovesStop(n: nat, w: World)
    requires OnTheMove(n, w)
    ensures WaitLast(n, w)
  {
  }

  /** Saving: what does not wait keeps the walk on the move, what waits is last. */
  lemma MoveSave(o: Oracle, n: nat, w: World, s: Snapshot)
    requires OnTheMove(n, w) && s.state.InProgress?
    ensures WaitLast(n, Checkpoint(o, w.(snap := s)).1)
    ensures !AtWait(s) ==> OnTheMove(n, Checkpoint(o, w.(snap := s)).1)
  {
  }

  lemma MoveGuard(o: Oracle, n: nat, scope: Option<string>, w: World)
    requires OnTheMove(n, w)
    ensures OnTheMove(n, Guard(o, scope, w).1)
  {
  }

  lemma MoveCall(env: Env, o: Oracle, n: nat, id: string, x: Bytes, keyFn: bool, w: World)
    requires OnTheMove(n, w)
    ensures OnTheMove(n, CallTask(env, o, id, x, keyFn, w).1)
  {
  }

  lemma MoveRecords(o: Oracle, n: nat, c: Cont, id: string, v: Bytes, i: nat, w: World)
    requires OnTheMove(n, w)
    ensures OnTheMove(n, Record(o, id, v, w).1) && OnTheMove(n, RecordStep(o, c, v, w).1)
    ensures c.Loop? ==> OnTheMove(n, NextIteration(o, c, i, w).1)
  {
    hide NoWait, Checkpoint, FirstTaskId;
    MoveSave(o, n, w, MarkTaskCompleted(w.snap, id, v));
    var w1 := Mark(w, c.id, v);
    MoveSave(o, n, w, if Next(c).Some? then MoveTo(w1, AtTask(FirstTaskId(Next(c).value))).snap else w1.snap);
    if c.Loop? {
      MoveSave(o, n, w,
        UpdatePosition(SetLoopIteration(w.snap, c.id, i), InLoop(c.id, i, Some(FirstTaskId(c.body)))));
    }
  }

  lemma MoveDrop(n: nat, ids: set<string>, id: string, w: World)
    requires OnTheMove(n, w)
    ensures OnTheMove(n, w.(snap := RemoveTaskResults(w.snap, ids)))
    ensures OnTheMove(n, w.(snap := ClearLoopIteration(w.snap, id)))
  {
    hide NoWait;
  }

  lemma MoveEdits(o: Oracle, n: nat, root: Cont)
    ensures KeptByRecords(o, root, WaitLaw(n)) && KeptByLoops(o, root, WaitLaw(n))
  {
    hide OnTheMove, WaitLast, Record, RecordStep, NextIteration, Inside;
    var law := WaitLaw(n);
    forall w | OnTheMove(n, w) ensures WaitLast(n, w) {
      MovesStop(n, w);
    }
    forall a, id, v, w | law(a, None, w) ensures law(a, StopOf(Record(o, id, v, w).0), Record(o, id, v, w).1) {
      MoveRecords(o, n, root, id, v, 0, w);
    }
    forall a, c, v, w | law(a, None, w) ensures law(a, StopOf(RecordStep(o, c, v, w).0), RecordStep(o, c, v, w).1) {
      MoveRecords(o, n, c, "", v, 0, w);
    }
    forall a, w, ids | law(a, None, w) ensures law(a, None, w.(snap := RemoveTaskResults(w.snap, ids))) {
      MoveDrop(n, ids, "", w);
    }
    forall a, w, id | law(a, None, w) ensures law(a, None, w.(snap := ClearLoopIteration(w.snap, id))) {
      MoveDrop(n, {}, id, w);
    }
    forall a, c: Cont, i: nat, w | law(a, None, w) && c.Loop?
      ensures law(a, NextIteration(o, c, i, w).0, NextIteration(o, c, i, w).1)
    {
      MoveRecords(o, n, c, "", [], i, w);
    }
  }

  lemma MoveParks(env: Env, o: Oracle, n: nat, root: Cont)
    ensures KeptByParks(env, o, root, WaitLaw(n))
  {
    hide NoWait, WaitLast, Checkpoint, Inside, SuccessorId, Span, ToMap;
    forall w | OnTheMove(n, w) ensures WaitLast(n, w) {
      MovesStop(n, w);
    }
    forall w, s: Snapshot | OnTheMove(n, w) && s.state.InProgress?
      ensures WaitLast(n, Checkpoint(o, w.(snap := s)).1)
      ensures !AtWait(s) ==> OnTheMove(n, Checkpoint(o, w.(snap := s)).1)
    {
      MoveSave(o, n, w, s);
    }
    SaveStops(o);
  }

  /** A failed save is no wait. */
  lemma SaveStops(o: Oracle)
    ensures forall w :: Checkpoint(o, w).0.Some? ==> !Checkpoint(o, w).0.value.Waiting?
  {
  }

  lemma MovesKept(env: Env, o: Oracle, n: nat, root: Cont)
    ensures Kept(Setting(env, o, root, WaitLaw(n), false))
  {
    hide KeptByRecords, KeptByParks, KeptByLoops, OnTheMove, WaitLast, Guard, CallTask;
    var law := WaitLaw(n);
    forall w | OnTheMove(n, w) ensures WaitLast(n, w) {
      MovesStop(n, w);
    }
    forall a, scope, w | law(a, None, w) ensures law(a, Guard(o, scope, w).0, Guard(o, scope, w).1) {
      MoveGuard(o, n, scope, w);
    }
    forall a, id, x, keyFn, w | law(a, None, w) ensures law(a, None, CallTask(env, o, id, x, keyFn, w).1) {
      MoveCall(env, o, n, id, x, keyFn, w);
    }
    forall a, w, t | law(a, None, w) && t == w.tick + 1 ensures law(a, None, w.(tick := t)) {
      MoveTick(n, w, t);
    }
    MoveEdits(o, n, root);
    MoveParks(env, o, n, root);
  }

  lemma MoveTick(n: nat, w: World, t: nat)
    requires OnTheMove(n, w)
    ensures OnTheMove(n, w.(tick := t))
  {
  }

  /** A wait saved since the event `n` is in the store, unless the instance has failed. */
  ghost predicate WaitLeft(n: nat, w: World) {
    forall i :: n <= i < |w.trace| && w.trace[i].Saved? && AtWait(w.trace[i].snapshot) ==>
      && (w.saved == w.trace[i].snapshot || HasEnded(w.saved))
      && forall j :: i < j < |w.trace| ==> w.trace[j].Saved?
  }

  lemma WalkLeaves(env: Env, o: Oracle, c: Cont, x: Bytes, n: nat, w: World)
    requires OnTheMove(n, w)
    ensures WaitLeft(n, Walk(env, o, c, x, w).1)
  {
    hide Kept, Exec;
    var k := Setting(env, o, c, WaitLaw(n), false);
    MovesKept(env, o, n, c);
    assert Inside(c, c);
    ExecEnds(k, 0, c, x, false, w);
    var (r, w1) := Exec(env, o, c, x, w);
    assert k.law(0, StopOf(r), w1);
    MovesStopIf(n, StopOf(r), w1);
  }

  lemma MovesStopIf(n: nat, s: Option<Stop>, w: World)
    requires WaitLaw(n)(0, s, w)
    ensures WaitLast(n, w)
  {
    hide OnTheMove, WaitLast;
    if s.None? || s.value.Waiting? {
      assert OnTheMove(n, w);
      MovesStop(n, w);
    } else {
      assert WaitLast(n, w);
    }
  }

  /** Resolving a wait either leaves it, or moves on without saving another. */
  lemma ResolveLeaves(o: Oracle, w: World)
    requires w.snap == w.saved && w.saved.state.InProgress?
    ensures
      var (hold, w') := ResolveParked(o, w);
      WaitLast(|w.trace|, w') && (hold.None? ==> OnTheMove(|w.trace|, w'))
  {
    match w.snap.state.position
    case AtSignal(_, _, _, _) => ResolveSignalLeaves(o, w);
    case AtDelay(_, _, _, _) => ResolveOtherLeaves(o, w);
    case AtFork(_, _, _) => ResolveOtherLeaves(o, w);
    case _ => assert ResolveParked(o, w) == (None, w);
  }

  lemma ResolveOtherLeaves(o: Oracle, w: World)
    requires w.snap == w.saved && w.saved.state.InProgress?
    requires w.snap.state.position.AtDelay? || w.snap.state.position.AtFork?
    ensures
      var (hold, w') := ResolveParked(o, w);
      WaitLast(|w.trace|, w') && (hold.None? ==> OnTheMove(|w.trace|, w'))
  {
  }

  lemma ResolveSignalLeaves(o: Oracle, w: World)
    requires AtWait(w.saved) && w.snap == w.saved && w.saved.state.InProgress?
    ensures
      var (hold, w') := ResolveParked(o, w);
      WaitLast(|w.trace|, w') && (hold.None? ==> OnTheMove(|w.trace|, w'))
  {
  }

  lemma ActionLeaves(env: Env, o: Oracle, c: Cont, a: Action, w: World)
    ensures WaitLeft(|w.trace|, Perform(env, o, c, a, w))
  {
    if a.Resume? && w.saved.state.InProgress? {
      hide Walk, ResolveParked;
      var w1 := w.(snap := w.saved);
      ResolveLeaves(o, w1);
      var (hold, w2) := ResolveParked(o, w1);
      if hold.None? && ResumeInput(w2.snap).Some? {
        WalkLeaves(env, o, c, ResumeInput(w2.snap).value, |w.trace|, w2);
      }
    }
  }

  /** Whatever wait an action saves, it leaves in the store, and calls nothing more; unless it ends the instance. */
  lemma SavedWaitsAreLeft(env: Env, o: Oracle, c: Cont, x: Bytes, actions: seq<Action>)
    ensures WaitLeft(Earlier(env, o, c, x, actions), History(env, o, c, x, actions))
  {
    hide Walk, Perform;
    if actions == [] {
      WalkLeaves(env, o, c, x, 0, Created(c, x));
    } else {
      var n := |actions| - 1;
      ActionLeaves(env, o, c, actions[n], History(env, o, c, x, actions[..n]));
    }
  }
}
