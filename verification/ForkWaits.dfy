/**
 Waiting in forks: an instance that reports to be waiting calls nothing before the latest wake time of all the
 delays it has parked at, in whatever branches of whatever forks.
 */
module ForkWaits {
  import opened Prelude
  import opened Continuation
  import opened Semantics
  import opened Snapshots
  import opened Durable
  import opened Lifecycle
  import opened Parts
  import opened Walks
  import opened DelaySafety
  import opened Growth

  /** The snapshot sleeps at a delay or a fork. */
  predicate Sleeps(s: Snapshot) {
    (s.state.InProgress? || s.state.Paused?) && (s.state.position.AtDelay? || s.state.position.AtFork?)
  }

  function WakeAt(s: Snapshot): int
    requires Sleeps(s)
  {
    s.state.position.wakeAt
  }

  // ----- one walk -----

  /** The snapshot, if it sleeps, has waked up by time `t`. */
  predicate UpBy(s: Snapshot, t: int) {
    Sleeps(s) ==> WakeAt(s) <= t
  }

  /** All that was saved from the event `n` on has waked up by time `t`. */
  ghost predicate AllUpBy(trace: seq<Event>, n: nat, t: int) {
    forall i :: n <= i < |trace| && trace[i].Saved? ==> UpBy(trace[i].snapshot, t)
  }

  ghost predicate Up(n: nat, w: World, t: int) {
    n <= |w.trace| && AllUpBy(w.trace, n, t) && UpBy(w.snap, t) && UpBy(w.saved, t)
  }

  /** A walk that is to wait until `t` has nothing to wait for longer than that, or than its forks' alarm. */
  ghost function AlarmLaw(o: Oracle, n: nat): Law {
    (alarm: int, stop: Option<Stop>, w: World) =>
      if stop.None? then w.snap.state.InProgress? && Up(n, w, Max(alarm, o.clock(w.tick)))
      else if stop.value.Waiting? then
        && w.snap.state.InProgress? && w.saved == w.snap && Sleeps(w.saved) && WakeAt(w.saved) == stop.value.wakeAt
        && Up(n, w, Max(Max(alarm, stop.value.wakeAt), o.clock(w.tick)))
      else true
  }

  lemma UpLater(n: nat, w: World, t: int, t': int)
    requires Up(n, w, t) && t <= t'
    ensures Up(n, w, t')
  {
  }

  lemma UpTick(o: Oracle, n: nat, a: int, w: World)
    requires Monotone(o) && Up(n, w, Max(a, o.clock(w.tick)))
    ensures Up(n, w.(tick := w.tick + 1), Max(a, o.clock(w.tick + 1)))
  {
    hide AllUpBy;
    UpLater(n, w, Max(a, o.clock(w.tick)), Max(a, o.clock(w.tick + 1)));
  }

  lemma UpStore(n: nat, w: World, s: Snapshot, t: int)
    requires Up(n, w, t) && UpBy(s, t)
    ensures Up(n, Store(w, s), t)
  {
  }

  lemma UpGuard(o: Oracle, n: nat, a: int, scope: Option<string>, w: World)
    requires Monotone(o) && AlarmLaw(o, n)(a, None, w)
    ensures var (g, w') := Guard(o, scope, w); AlarmLaw(o, n)(a, g, w')
  {
    hide Up;
    UpTick(o, n, a, w);
  }

  lemma UpCall(env: Env, o: Oracle, n: nat, a: int, id: string, x: Bytes, keyFn: bool, w: World)
    requires Monotone(o) && AlarmLaw(o, n)(a, None, w)
    ensures AlarmLaw(o, n)(a, None, CallTask(env, o, id, x, keyFn, w).1)
  {
    UpTick(o, n, a, w);
    var w1 := w.(tick := w.tick + 1);
    assert Up(n, w1.(trace := w.trace + [Called(id, x, keyFn, o.clock(w.tick))]), Max(a, o.clock(w1.tick)));
  }

  /** Saving a snapshot that sleeps no longer than the alarm allows. */
  lemma UpSave(o: Oracle, n: nat, a: int, w: World, s: Snapshot)
    requires Monotone(o) && Up(n, w, Max(a, o.clock(w.tick))) && UpBy(s, Max(a, o.clock(w.tick)))
    ensures var w' := Checkpoint(o, w.(snap := s)).1; Up(n, w', Max(a, o.clock(w'.tick))) && w'.snap == s
  {
    hide AllUpBy;
    var w1 := w.(snap := s);
    UpTick(o, n, a, w1);
    UpStore(n, w1.(tick := w.tick + 1), s, Max(a, o.clock(w.tick + 1)));
  }

  lemma UpRecords(o: Oracle, n: nat, a: int, c: Cont, id: string, v: Bytes, w: World)
    requires Monotone(o) && AlarmLaw(o, n)(a, None, w)
    ensures AlarmLaw(o, n)(a, None, Record(o, id, v, w).1)
    ensures AlarmLaw(o, n)(a, None, RecordStep(o, c, v, w).1)
  {
    hide AllUpBy, Checkpoint, FirstTaskId;
    UpSave(o, n, a, w, MarkTaskCompleted(w.snap, id, v));
    var w1 := Mark(w, c.id, v);
    UpSave(o, n, a, w, if Next(c).Some? then MoveTo(w1, AtTask(FirstTaskId(Next(c).value))).snap else w1.snap);
  }

  lemma UpIteration(o: Oracle, n: nat, a: int, c: Cont, i: nat, w: World)
    requires Monotone(o) && AlarmLaw(o, n)(a, None, w) && c.Loop?
    ensures AlarmLaw(o, n)(a, None, NextIteration(o, c, i, w).1)
  {
    hide AllUpBy, Checkpoint, FirstTaskId;
    UpSave(o, n, a, w, UpdatePosition(SetLoopIteration(w.snap, c.id, i), InLoop(c.id, i, Some(FirstTaskId(c.body)))));
  }

  /** A walk that goes on may also stop, for any reason but waiting. */
  lemma UpStops(o: Oracle, n: nat, a: int, s: Option<Stop>, w: World)
    requires AlarmLaw(o, n)(a, None, w) && (s.Some? ==> !s.value.Waiting?)
    ensures AlarmLaw(o, n)(a, s, w)
  {
    hide Up;
  }

  /** Parking: the sleep that is saved is the one that is reported. */
  lemma UpPark(o: Oracle, n: nat, a: int, s: Snapshot, w: World)
    requires Monotone(o) && s.state.InProgress? && Sleeps(s) && Up(n, w, Max(Max(a, WakeAt(s)), o.clock(w.tick)))
    ensures
      var (f, w') := Checkpoint(o, w.(snap := s));
      AlarmLaw(o, n)(a, Some(if f.Some? then f.value else Waiting(WakeAt(s))), w')
  {
    hide Up;
    UpSave(o, n, Max(a, WakeAt(s)), w, s);
  }

  lemma UpDelay(o: Oracle, n: nat, a: int, c: Cont, x: Bytes, w: World)
    requires Monotone(o) && AlarmLaw(o, n)(a, None, w) && c.Delay?
    ensures var (r, w') := ParkAtDelay(o, c, x, w); AlarmLaw(o, n)(a, StopOf(r), w')
  {
    hide AllUpBy, Checkpoint, SuccessorId, Span;
    var now := o.clock(w.tick);
    var t := now + Span(c.duration);
    var s := Mark(MoveTo(w, AtDelay(c.id, now, t, SuccessorId(c))), c.id, x).snap;
    UpLater(n, w, Max(a, now), Max(Max(a, t), now));
    UpPark(o, n, a, s, w);
  }

  lemma UpFork(env: Env, o: Oracle, n: nat, a: int, c: Cont, results: seq<(string, Bytes)>, wake: int, w: World)
    requires Monotone(o) && AlarmLaw(o, n)(Max(a, wake), None, w) && c.Fork?
    ensures var (r, w') := FinishFork(env, o, c, results, Some(wake), w); AlarmLaw(o, n)(a, StopOf(r), w')
  {
    hide Up, Checkpoint, ToMap;
    UpPark(o, n, a, MoveTo(w, AtFork(c.id, ToMap(results), wake)).snap, w);
  }

  lemma UpEdits(o: Oracle, n: nat, root: Cont)
    requires Monotone(o)
    ensures var law := AlarmLaw(o, n); KeptByRecords(o, root, law) && KeptByLoops(o, root, law)
  {
    hide Monotone, Up, Record, RecordStep, NextIteration, Inside;
    var law := AlarmLaw(o, n);
    forall a, id, v, w | law(a, None, w) ensures law(a, StopOf(Record(o, id, v, w).0), Record(o, id, v, w).1) {
      UpRecords(o, n, a, root, id, v, w);
      RecordFaults(o, id, v, w);
      UpStops(o, n, a, StopOf(Record(o, id, v, w).0), Record(o, id, v, w).1);
    }
    forall a, c, v, w | law(a, None, w) ensures law(a, StopOf(RecordStep(o, c, v, w).0), RecordStep(o, c, v, w).1) {
      UpRecords(o, n, a, c, "", v, w);
      StepFaults(o, c, v, w);
      UpStops(o, n, a, StopOf(RecordStep(o, c, v, w).0), RecordStep(o, c, v, w).1);
    }
    forall a, w, ids | law(a, None, w) ensures law(a, None, w.(snap := RemoveTaskResults(w.snap, ids))) {
      UpDrop(o, n, a, ids, "", w);
    }
    forall a, w, id | law(a, None, w) ensures law(a, None, w.(snap := ClearLoopIteration(w.snap, id))) {
      UpDrop(o, n, a, {}, id, w);
    }
    forall a, c: Cont, i: nat, w | law(a, None, w) && c.Loop?
      ensures law(a, NextIteration(o, c, i, w).0, NextIteration(o, c, i, w).1)
    {
      UpIteration(o, n, a, c, i, w);
      IterationFaults(o, c, i, w);
      UpStops(o, n, a, NextIteration(o, c, i, w).0, NextIteration(o, c, i, w).1);
    }
  }

  lemma UpDrop(o: Oracle, n: nat, a: int, ids: set<string>, id: string, w: World)
    requires AlarmLaw(o, n)(a, None, w)
    ensures AlarmLaw(o, n)(a, None, w.(snap := RemoveTaskResults(w.snap, ids)))
    ensures AlarmLaw(o, n)(a, None, w.(snap := ClearLoopIteration(w.snap, id)))
  {
    hide AllUpBy;
    var t := Max(a, o.clock(w.tick));
    assert Up(n, w, t) && w.snap.state.InProgress?;
    assert UpBy(RemoveTaskResults(w.snap, ids), t);
    assert Up(n, w.(snap := RemoveTaskResults(w.snap, ids)), t);
    assert Up(n, w.(snap := ClearLoopIteration(w.snap, id)), t);
  }

  lemma StepFaults(o: Oracle, c: Cont, v: Bytes, w: World)
    ensures var (r, w') := RecordStep(o, c, v, w); r.Err? ==> !r.error.Waiting?
  {
  }

  lemma IterationFaults(o: Oracle, c: Cont, i: nat, w: World)
    requires c.Loop?
    ensures var (s, w') := NextIteration(o, c, i, w); s.Some? ==> !s.value.Waiting?
  {
  }

  lemma SignalFaults(o: Oracle, c: Cont, w: World)
    requires c.AwaitSignal?
    ensures var (r, w') := ParkAtSignal(o, c, w); r.Err? && !r.error.Waiting?
  {
  }

  lemma AlarmsKept(env: Env, o: Oracle, n: nat, root: Cont)
    requires Monotone(o)
    ensures Kept(Setting(env, o, root, AlarmLaw(o, n), false))
  {
    hide Monotone, Up, Guard, CallTask, KeptByRecords, KeptByLoops, ParkAtDelay, ParkAtSignal, FinishFork, Inside;
    var law := AlarmLaw(o, n);
    forall a, scope, w | law(a, None, w) ensures law(a, Guard(o, scope, w).0, Guard(o, scope, w).1) {
      UpGuard(o, n, a, scope, w);
    }
    forall a, id, x, keyFn, w | law(a, None, w) ensures law(a, None, CallTask(env, o, id, x, keyFn, w).1) {
      UpCall(env, o, n, a, id, x, keyFn, w);
    }
    forall a, w, t | law(a, None, w) && t == w.tick + 1 ensures law(a, None, w.(tick := t)) {
      UpTick(o, n, a, w);
    }
    UpEdits(o, n, root);
    assert KeptByParks(env, o, root, law) by {
      forall a, c: Cont, x, w | law(a, None, w) && c.Delay?
        ensures law(a, StopOf(ParkAtDelay(o, c, x, w).0), ParkAtDelay(o, c, x, w).1)
      {
        UpDelay(o, n, a, c, x, w);
      }
      forall a, c: Cont, w | law(a, None, w) && c.AwaitSignal?
        ensures law(a, StopOf(ParkAtSignal(o, c, w).0), ParkAtSignal(o, c, w).1)
      {
        SignalFaults(o, c, w);
      }
      forall a, c: Cont, results, wake, w | law(Max(a, wake), None, w) && c.Fork?
        ensures var (r, w') := FinishFork(env, o, c, results, Some(wake), w); law(a, StopOf(r), w')
      {
        UpFork(env, o, n, a, c, results, wake, w);
      }
    }
  }

  /**
   A walk that reports to wait until `t` has stored a snapshot that sleeps until `t`, and everything it has
   saved since it started wakes up by then, or has already.
   */
  lemma WalkSleeps(env: Env, o: Oracle, c: Cont, x: Bytes, w: World)
    requires Monotone(o) && w.snap.state.InProgress? && UpBy(w.snap, o.clock(w.tick)) && UpBy(w.saved, o.clock(w.tick))
    ensures
      var (r, w') := Walk(env, o, c, x, w);
      r.Err? && r.error.Waiting? ==>
        && Sleeps(w'.saved) && WakeAt(w'.saved) == r.error.wakeAt
        && AllUpBy(w'.trace, |w.trace|, Max(r.error.wakeAt, o.clock(w'.tick)))
  {
    hide Kept, Exec, Monotone;
    var n, now := |w.trace|, o.clock(w.tick);
    var k := Setting(env, o, c, AlarmLaw(o, n), false);
    AlarmsKept(env, o, n, c);
    assert Inside(c, c) && Up(n, w, Max(now, now));
    assert k.law(now, None, w);
    ExecEnds(k, now, c, x, false, w);
    var (r, w') := Exec(env, o, c, x, w);
    assert k.law(now, StopOf(r), w');
    if r.Err? && r.error.Waiting? {
      ExecGrows(env, o, c, x, w);
      ClockGrows(o, w.tick, w'.tick);
    }
  }

  // ----- whole histories -----

  /** Everything called since `w` was called at `m` or later; until `m` has passed, the store sleeps or has ended. */
  ghost predicate NotBefore(o: Oracle, m: int, w: World, w': World) {
    && |w.trace| <= |w'.trace|
    && (forall i :: |w.trace| <= i < |w'.trace| && w'.trace[i].Called? ==> m <= w'.trace[i].at)
    && ((Sleeps(w'.saved) && WakeAt(w'.saved) == m) || w'.saved.state.Cancelled? || m <= o.clock(w'.tick))
  }

  /** Resolving a wait makes no call, and lets a sleeper go on only once it has waked up. */
  ghost predicate ResolvedAwake(o: Oracle, w: World, hold: Option<Report>, w': World) {
    && |w.trace| <= |w'.trace| && w'.trace[..|w.trace|] == w.trace && w.tick <= w'.tick
    && (forall i :: |w.trace| <= i < |w'.trace| ==> w'.trace[i].Saved?)
    && (hold.None? ==> w'.snap.state.InProgress? && w'.saved == w'.snap && UpBy(w'.snap, o.clock(w'.tick)))
    && (hold.None? ==> forall i :: |w.trace| <= i < |w'.trace| ==> UpBy(w'.trace[i].snapshot, o.clock(w'.tick)))
    && (Sleeps(w.saved) ==>
          || (Sleeps(w'.saved) && WakeAt(w'.saved) == WakeAt(w.saved) && hold.Some?)
          || w'.saved.state.Cancelled?
          || WakeAt(w.saved) <= o.clock(w'.tick))
  }

  lemma ResolveAwake(o: Oracle, w: World)
    requires Monotone(o) && w.snap == w.saved && w.saved.state.InProgress?
    ensures var (hold, w') := ResolveParked(o, w); ResolvedAwake(o, w, hold, w')
  {
    match w.snap.state.position
    case AtDelay(_, _, _, _) => ResolveDelaySleeper(o, w);
    case AtFork(_, _, _) => ResolveForkSleeper(o, w);
    case AtSignal(_, _, _, _) => ResolveWaiter(o, w);
    case _ => assert ResolveParked(o, w) == (None, w);
  }

  lemma ResolveDelaySleeper(o: Oracle, w: World)
    requires Monotone(o) && w.snap == w.saved && w.saved.state.InProgress? && w.saved.state.position.AtDelay?
    ensures var (hold, w') := ResolveParked(o, w); ResolvedAwake(o, w, hold, w')
  {
    var (hold, w') := ResolveParked(o, w);
    assert w'.tick == w.tick + 1 || w'.tick == w.tick + 2;
    ClockGrows(o, w.tick + 1, w'.tick);
  }

  lemma ResolveForkSleeper(o: Oracle, w: World)
    requires Monotone(o) && w.snap == w.saved && w.saved.state.InProgress? && w.saved.state.position.AtFork?
    ensures var (hold, w') := ResolveParked(o, w); ResolvedAwake(o, w, hold, w')
  {
    var (hold, w') := ResolveParked(o, w);
    assert w'.tick == w.tick + 1 || w'.tick == w.tick + 2;
    ClockGrows(o, w.tick + 1, w'.tick);
  }

  lemma ResolveWaiter(o: Oracle, w: World)
    requires Monotone(o) && w.snap == w.saved && w.saved.state.InProgress? && w.saved.state.position.AtSignal?
    ensures var (hold, w') := ResolveParked(o, w); ResolvedAwake(o, w, hold, w')
  {
  }

  lemma NotBeforeStep(env: Env, o: Oracle, c: Cont, a: Action, m: int, w: World, w1: World)
    requires Monotone(o) && NotBefore(o, m, w, w1)
    ensures NotBefore(o, m, w, Perform(env, o, c, a, w1))
  {
    var w2 := Perform(env, o, c, a, w1);
    PerformGrows(env, o, c, a, w1);
    if m <= o.clock(w1.tick) {
      hide Perform, Monotone;
      ClockGrows(o, w1.tick, w2.tick);
      forall i | |w.trace| <= i < |w2.trace| && w2.trace[i].Called? ensures m <= w2.trace[i].at {
        if i < |w1.trace| {
          assert w2.trace[..|w1.trace|][i] == w1.trace[i];
        } else {
          CallsComeLater(o, w1, w2, i);
        }
      }
    } else if Sleeps(w1.saved) && w1.saved.state.InProgress? && a.Resume? {
      hide Perform, Monotone;
      SleeperResumes(env, o, c, m, w, w1);
    }
  }

  lemma SleeperResumes(env: Env, o: Oracle, c: Cont, m: int, w: World, w1: World)
    requires Monotone(o) && NotBefore(o, m, w, w1) && Sleeps(w1.saved) && WakeAt(w1.saved) == m
    requires w1.saved.state.InProgress?
    ensures NotBefore(o, m, w, Perform(env, o, c, Resume, w1))
  {
    hide Walk, ResolveParked, Monotone;
    var w2 := w1.(snap := w1.saved);
    ResolveAwake(o, w2);
    var (hold, w3) := ResolveParked(o, w2);
    assert forall i :: |w.trace| <= i < |w1.trace| ==> w3.trace[i] == w3.trace[..|w1.trace|][i] == w1.trace[i];
    if hold.None? && ResumeInput(w3.snap).Some? {
      WalkGrows(env, o, c, ResumeInput(w3.snap).value, w3);
      var w4 := Walk(env, o, c, ResumeInput(w3.snap).value, w3).1;
      ClockGrows(o, w3.tick, w4.tick);
      forall i | |w.trace| <= i < |w4.trace| && w4.trace[i].Called? ensures m <= w4.trace[i].at {
        if i < |w3.trace| {
          assert w4.trace[..|w3.trace|][i] == w3.trace[i];
        } else {
          CallsComeLater(o, w3, w4, i);
        }
      }
    }
  }

  /** A sleeping instance sleeps: whatever actions follow, nothing is called before its wake time. */
  lemma {:induction false} SleepersSleep(
      env: Env, o: Oracle, c: Cont, x: Bytes, actions: seq<Action>, more: seq<Action>)
    requires Monotone(o) && Sleeps(History(env, o, c, x, actions).saved)
    ensures
      var w := History(env, o, c, x, actions);
      NotBefore(o, WakeAt(w.saved), w, History(env, o, c, x, actions + more))
    decreases |more|
  {
    var w := History(env, o, c, x, actions);
    if more == [] {
      assert actions + more == actions;
    } else {
      var n := |more| - 1;
      var w1 := History(env, o, c, x, actions + more[..n]);
      assert (actions + more)[..|actions| + n] == actions + more[..n];
      assert History(env, o, c, x, actions + more) == Perform(env, o, c, more[n], w1);
      hide History, Perform, Monotone, NotBefore;
      SleepersSleep(env, o, c, x, actions, more[..n]);
      NotBeforeStep(env, o, c, more[n], WakeAt(w.saved), w, w1);
    }
  }

  /** What the walk of the last action of a history returned, if it came to one. */
  function LastResult(env: Env, o: Oracle, c: Cont, x: Bytes, actions: seq<Action>): Option<ExecResult> {
    if actions == [] then Some(Walk(env, o, c, x, Created(c, x)).0) else
    var n := |actions| - 1;
    if actions[n].Unpause? then None else
    var report := Attempt(env, o, c, History(env, o, c, x, actions[..n])).0;
    if report.Ended? then Some(report.result) else None
  }

  /** A position that cannot be resolved is not the end of a walk. */
  lemma ResolveReports(o: Oracle, w: World)
    requires w.snap.state.InProgress?
    ensures var (hold, w') := ResolveParked(o, w); hold.Some? ==> !hold.value.Ended?
  {
  }

  lemma AttemptSleeps(env: Env, o: Oracle, c: Cont, w: World, m: int)
    requires Monotone(o) && Attempt(env, o, c, w).0 == Ended(Err(Waiting(m)))
    ensures
      var w' := Attempt(env, o, c, w).1;
      && Sleeps(w'.saved) && WakeAt(w'.saved) == m && AllUpBy(w'.trace, |w.trace|, Max(m, o.clock(w'.tick)))
  {
    hide Walk, ResolveParked, Monotone;
    var w1 := w.(snap := w.saved);
    ResolveAwake(o, w1);
    ResolveReports(o, w1);
    var (hold, w2) := ResolveParked(o, w1);
    assert hold.None? && ResumeInput(w2.snap).Some?;
    var x := ResumeInput(w2.snap).value;
    WalkSleeps(env, o, c, x, w2);
    WalkGrows(env, o, c, x, w2);
    UpFromStart(o, |w.trace|, w2, Walk(env, o, c, x, w2).1, m);
  }

  /** An action that reports to wait until `m`: its store sleeps until `m`, and all it saved is up by then. */
  lemma LastSleeps(env: Env, o: Oracle, c: Cont, x: Bytes, actions: seq<Action>, m: int)
    requires Monotone(o) && LastResult(env, o, c, x, actions) == Some(Err(Waiting(m)))
    ensures
      var w := History(env, o, c, x, actions);
      && Sleeps(w.saved) && WakeAt(w.saved) == m
      && AllUpBy(w.trace, Earlier(env, o, c, x, actions), Max(m, o.clock(w.tick)))
  {
    hide Walk, Attempt, Monotone;
    if actions == [] {
      var w := Created(c, x);
      WalkSleeps(env, o, c, x, w);
      WalkGrows(env, o, c, x, w);
      UpFromStart(o, 0, w, Walk(env, o, c, x, w).1, m);
    } else {
      AttemptSleeps(env, o, c, History(env, o, c, x, actions[..|actions| - 1]), m);
    }
  }

  /** What was saved before the walk was up when it started. */
  lemma UpFromStart(o: Oracle, n: nat, w: World, w': World, m: int)
    requires Monotone(o) && Grown(o, w, w') && AllUpBy(w.trace, n, o.clock(w.tick))
    requires AllUpBy(w'.trace, |w.trace|, Max(m, o.clock(w'.tick)))
    ensures AllUpBy(w'.trace, n, Max(m, o.clock(w'.tick)))
  {
    ClockGrows(o, w.tick, w'.tick);
    assert forall i :: n <= i < |w.trace| ==> w'.trace[i] == w'.trace[..|w.trace|][i] == w.trace[i];
  }

  /**
   Waiting is for all branches. Once an action has reported that the instance waits, nothing is called, by
   whatever actions follow, before the wake time of any delay or fork it has parked at on the way.
   */
  lemma WaitingIsForAll(
      env: Env, o: Oracle, c: Cont, x: Bytes, actions: seq<Action>, m: int, more: seq<Action>, i: nat, j: nat)
    requires Monotone(o) && LastResult(env, o, c, x, actions) == Some(Err(Waiting(m)))
    requires
      var w, w' := History(env, o, c, x, actions), History(env, o, c, x, actions + more);
      && Earlier(env, o, c, x, actions) <= i < |w.trace| && w.trace[i].Saved? && Sleeps(w.trace[i].snapshot)
      && |w.trace| <= j < |w'.trace| && w'.trace[j].Called?
    ensures
      var w, w' := History(env, o, c, x, actions), History(env, o, c, x, actions + more);
      WakeAt(w.trace[i].snapshot) <= w'.trace[j].at
  {
    hide History, LastResult, Earlier, Monotone;
    LastSleeps(env, o, c, x, actions, m);
    SleepersSleep(env, o, c, x, actions, more);
    HistoryGrows(env, o, c, x, actions, more);
    CallsComeLater(o, History(env, o, c, x, actions), History(env, o, c, x, actions + more), j);
  }
}
