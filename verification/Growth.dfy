/** Everything the executor does adds to the history, and calls are stamped with the time of their step. */
module Growth {
  import opened Prelude
  import opened Continuation
  import opened Semantics
  import opened Snapshots
  import opened Durable
  import opened Lifecycle
  import opened Parts
  import opened Walks
  import opened DelaySafety

  /** The last snapshot written to the store. */
  function LastSaved(trace: seq<Event>): Option<Snapshot> {
    if trace == [] then None else
    var n := |trace| - 1;
    if trace[n].Saved? then Some(trace[n].snapshot) else LastSaved(trace[..n])
  }

  /** The store holds what was written last. */
  ghost predicate Coherent(w: World) {
    LastSaved(w.trace) == Some(w.saved)
  }

  /** The call was made at one of the steps from `from` up to `to`. */
  ghost predicate MadeAt(o: Oracle, e: Event, from: nat, to: nat)
    requires e.Called?
  {
    exists t: nat :: from <= t < to && e.at == o.clock(t)
  }

  /** `w'` comes after `w`. */
  ghost predicate Grown(o: Oracle, w: World, w': World) {
    && w.tick <= w'.tick && |w.trace| <= |w'.trace| && w'.trace[..|w.trace|] == w.trace
    && (forall i :: |w.trace| <= i < |w'.trace| && w'.trace[i].Called? ==> MadeAt(o, w'.trace[i], w.tick, w'.tick))
    && (Coherent(w) ==> Coherent(w'))
  }

  ghost function GrowLaw(o: Oracle, w: World): Law {
    (alarm, stop, w') => Grown(o, w, w')
  }

  /** Memory and time may change at will. */
  lemma GrownStill(o: Oracle, w: World, w1: World, w2: World)
    requires Grown(o, w, w1) && w2.trace == w1.trace && w2.saved == w1.saved && w1.tick <= w2.tick
    ensures Grown(o, w, w2)
  {
    forall i | |w.trace| <= i < |w2.trace| && w2.trace[i].Called?
      ensures MadeAt(o, w2.trace[i], w.tick, w2.tick)
    {
      assert MadeAt(o, w1.trace[i], w.tick, w1.tick);
    }
  }

  lemma GrownEvent(o: Oracle, w: World, w1: World, w2: World, e: Event)
    requires Grown(o, w, w1) && w2.trace == w1.trace + [e] && w1.tick < w2.tick
    requires if e.Called? then e.at == o.clock(w1.tick) && w2.saved == w1.saved else w2.saved == e.snapshot
    ensures Grown(o, w, w2)
  {
    assert w2.trace[..|w1.trace|] == w1.trace;
    forall i | |w.trace| <= i < |w2.trace| && w2.trace[i].Called?
      ensures MadeAt(o, w2.trace[i], w.tick, w2.tick)
    {
      if i < |w1.trace| {
        assert MadeAt(o, w1.trace[i], w.tick, w1.tick);
      }
    }
    assert w2.trace[..|w.trace|] == w1.trace[..|w.trace|];
  }

  lemma GrownVia(o: Oracle, w: World, w1: World, w2: World)
    requires Grown(o, w, w1) && Grown(o, w1, w2)
    ensures Grown(o, w, w2)
  {
    forall i | |w.trace| <= i < |w2.trace| && w2.trace[i].Called?
      ensures MadeAt(o, w2.trace[i], w.tick, w2.tick)
    {
      if i < |w1.trace| {
        assert w2.trace[i] == w2.trace[..|w1.trace|][i] == w1.trace[i];
        assert MadeAt(o, w1.trace[i], w.tick, w1.tick);
      } else {
        assert MadeAt(o, w2.trace[i], w1.tick, w2.tick);
      }
    }
    assert w2.trace[..|w.trace|] == w2.trace[..|w1.trace|][..|w.trace|];
  }

  /** A guard, a save or a call: one step, with at most one event. */
  lemma GrownStep(o: Oracle, w: World, w1: World, w2: World)
    requires Grown(o, w, w1) && w2.tick == w1.tick + 1
    requires
      || (w2.trace == w1.trace && w2.saved == w1.saved)
      || w2.trace == w1.trace + [Saved(w2.saved)]
      || (w2.saved == w1.saved && exists id, x, k :: w2.trace == w1.trace + [Called(id, x, k, o.clock(w1.tick))])
    ensures Grown(o, w, w2)
  {
    if w2.trace == w1.trace {
      GrownStill(o, w, w1, w2);
    } else if w2.trace == w1.trace + [Saved(w2.saved)] {
      GrownEvent(o, w, w1, w2, Saved(w2.saved));
    } else {
      var id, x, k :| w2.trace == w1.trace + [Called(id, x, k, o.clock(w1.tick))];
      GrownEvent(o, w, w1, w2, Called(id, x, k, o.clock(w1.tick)));
    }
  }

  lemma GuardGrows(o: Oracle, w: World, scope: Option<string>, w1: World)
    requires Grown(o, w, w1)
    ensures Grown(o, w, Guard(o, scope, w1).1)
  {
    hide Grown;
    GrownStep(o, w, w1, Guard(o, scope, w1).1);
  }

  lemma SaveGrows(o: Oracle, w: World, w1: World, s: Snapshot)
    requires Grown(o, w, w1)
    ensures Grown(o, w, Checkpoint(o, w1.(snap := s)).1)
  {
    hide Grown;
    GrownStep(o, w, w1, Checkpoint(o, w1.(snap := s)).1);
  }

  lemma CallGrows(env: Env, o: Oracle, w: World, id: string, x: Bytes, keyFn: bool, w1: World)
    requires Grown(o, w, w1)
    ensures Grown(o, w, CallTask(env, o, id, x, keyFn, w1).1)
  {
    hide Grown;
    GrownStep(o, w, w1, CallTask(env, o, id, x, keyFn, w1).1);
  }

  /** All other operations save an edited snapshot. */
  lemma GrowRecords(o: Oracle, root: Cont, w: World)
    ensures var law := GrowLaw(o, w); KeptByRecords(o, root, law) && KeptByLoops(o, root, law)
  {
    hide Grown, Checkpoint, Inside, FirstTaskId;
    var law := GrowLaw(o, w);
    forall w1, s | Grown(o, w, w1) ensures Grown(o, w, Checkpoint(o, w1.(snap := s)).1) {
      SaveGrows(o, w, w1, s);
    }
    forall a, w1, ids | law(a, None, w1) ensures law(a, None, w1.(snap := RemoveTaskResults(w1.snap, ids))) {
      GrownStill(o, w, w1, w1.(snap := RemoveTaskResults(w1.snap, ids)));
    }
    forall a, w1, id | law(a, None, w1) ensures law(a, None, w1.(snap := ClearLoopIteration(w1.snap, id))) {
      GrownStill(o, w, w1, w1.(snap := ClearLoopIteration(w1.snap, id)));
    }
  }

  lemma GrowParks(env: Env, o: Oracle, root: Cont, w: World)
    ensures KeptByParks(env, o, root, GrowLaw(o, w))
  {
    hide Grown, Checkpoint, Inside, SuccessorId, Span, ToMap;
    forall w1, s | Grown(o, w, w1) ensures Grown(o, w, Checkpoint(o, w1.(snap := s)).1) {
      SaveGrows(o, w, w1, s);
    }
  }

  lemma GrowKept(env: Env, o: Oracle, c: Cont, w: World)
    ensures Kept(Setting(env, o, c, GrowLaw(o, w), false))
  {
    hide KeptByRecords, KeptByParks, KeptByLoops, Grown, Guard, CallTask;
    var law := GrowLaw(o, w);
    forall a, scope, w1 | law(a, None, w1) ensures law(a, Guard(o, scope, w1).0, Guard(o, scope, w1).1) {
      GuardGrows(o, w, scope, w1);
    }
    forall a, id, x, keyFn, w1 | law(a, None, w1) ensures law(a, None, CallTask(env, o, id, x, keyFn, w1).1) {
      CallGrows(env, o, w, id, x, keyFn, w1);
    }
    forall a, w1, t | law(a, None, w1) && t == w1.tick + 1 ensures law(a, None, w1.(tick := t)) {
      GrownStill(o, w, w1, w1.(tick := t));
    }
    GrowRecords(o, c, w);
    GrowParks(env, o, c, w);
  }

  lemma ExecGrows(env: Env, o: Oracle, c: Cont, x: Bytes, w: World)
    ensures Grown(o, w, Exec(env, o, c, x, w).1)
  {
    hide Kept, Exec;
    var k := Setting(env, o, c, GrowLaw(o, w), false);
    GrowKept(env, o, c, w);
    assert Inside(c, c);
    ExecEnds(k, 0, c, x, false, w);
    var (r, w1) := Exec(env, o, c, x, w);
    assert k.law(0, StopOf(r), w1);
  }

  lemma WalkGrows(env: Env, o: Oracle, c: Cont, x: Bytes, w: World)
    ensures Grown(o, w, Walk(env, o, c, x, w).1)
  {
    hide Exec, Checkpoint, Grown;
    ExecGrows(env, o, c, x, w);
    var (r, w1) := Exec(env, o, c, x, w);
    SaveGrows(o, w, w1, if r.Ok? then MarkCompleted(w1.snap, r.value) else MarkFailed(w1.snap));
  }

  lemma ResolveGrows(o: Oracle, w: World)
    requires w.snap.state.InProgress?
    ensures Grown(o, w, ResolveParked(o, w).1)
  {
    hide Grown;
    match w.snap.state.position
    case AtDelay(_, _, _, _) => DelayResolveGrows(o, w);
    case AtFork(_, _, _) => ForkResolveGrows(o, w);
    case AtSignal(_, _, _, _) => SignalResolveGrows(o, w);
    case _ => GrownSelf(o, w);
  }

  lemma DelayResolveGrows(o: Oracle, w: World)
    requires w.snap.state.InProgress? && w.snap.state.position.AtDelay?
    ensures Grown(o, w, ResolveParked(o, w).1)
  {
    hide Grown, Guard, Checkpoint;
    var p := w.snap.state.position;
    GrownSelf(o, w);
    GuardGrows(o, w, Some(p.delayId), w);
    var w1 := Guard(o, Some(p.delayId), w).1;
    if p.nextTaskId.Some? {
      SaveGrows(o, w, w1, MoveTo(w1, AtTask(p.nextTaskId.value)).snap);
    } else {
      var output := TaskResult(w1.snap, p.delayId);
      SaveGrows(o, w, w1, MarkCompleted(w1.snap, if output.Some? then output.value else []));
    }
  }

  lemma ForkResolveGrows(o: Oracle, w: World)
    requires w.snap.state.InProgress? && w.snap.state.position.AtFork?
    ensures Grown(o, w, ResolveParked(o, w).1)
  {
    hide Grown, Guard, Checkpoint;
    var p := w.snap.state.position;
    GrownSelf(o, w);
    GuardGrows(o, w, Some(p.forkId), w);
    var w1 := Guard(o, Some(p.forkId), w).1;
    SaveGrows(o, w, w1, w1.snap);
    assert w1.(snap := w1.snap) == w1;
  }

  lemma SignalResolveGrows(o: Oracle, w: World)
    requires w.snap.state.InProgress? && w.snap.state.position.AtSignal?
    ensures Grown(o, w, ResolveParked(o, w).1)
  {
    hide Grown, Guard, AnswerSignal;
    var p := w.snap.state.position;
    GrownSelf(o, w);
    GuardGrows(o, w, Some(p.signalId), w);
    var w1 := Guard(o, Some(p.signalId), w).1;
    var w2 := w1.(tick := w1.tick + 1);
    GrownStill(o, w, w1, w2);
    AnswerGrows(o, w, p, [], w2);
    if o.mail(w1.tick, p.signalName).Delivered? {
      AnswerGrows(o, w, p, o.mail(w1.tick, p.signalName).payload, w2);
    }
  }

  lemma AnswerGrows(o: Oracle, w: World, p: Position, v: Bytes, w1: World)
    requires Grown(o, w, w1) && p.AtSignal?
    ensures Grown(o, w, AnswerSignal(o, p, v, w1).1)
  {
    hide Grown, Checkpoint;
    var s := MarkTaskCompleted(w1.snap, p.signalId, v);
    if p.nextTaskId.Some? {
      SaveGrows(o, w, w1, UpdatePosition(s, AtTask(p.nextTaskId.value)));
    } else {
      SaveGrows(o, w, w1, MarkCompleted(s, v));
    }
  }

  /** Every action adds to the history. */
  lemma PerformGrows(env: Env, o: Oracle, c: Cont, a: Action, w: World)
    ensures Grown(o, w, Perform(env, o, c, a, w))
  {
    assert Grown(o, w, w);
    hide Walk, Checkpoint, ResolveParked, Grown;
    if a.Resume? {
      var w1 := w.(snap := w.saved);
      GrownStill(o, w, w, w1);
      if w1.snap.state.InProgress? {
        ResolveGrows(o, w1);
        var (hold, w2) := ResolveParked(o, w1);
        GrownVia(o, w, w1, w2);
        if hold.None? && ResumeInput(w2.snap).Some? {
          WalkGrows(env, o, c, ResumeInput(w2.snap).value, w2);
          GrownVia(o, w, w2, Walk(env, o, c, ResumeInput(w2.snap).value, w2).1);
        }
      }
    } else {
      SaveGrows(o, w, w, MarkUnpaused(w.saved));
    }
  }

  lemma {:induction false} HistoryGrows(
      env: Env, o: Oracle, c: Cont, x: Bytes, actions: seq<Action>, more: seq<Action>)
    ensures Grown(o, History(env, o, c, x, actions), History(env, o, c, x, actions + more))
    decreases |more|
  {
    hide Perform, Walk, Grown;
    var w := History(env, o, c, x, actions);
    if more == [] {
      assert actions + more == actions;
      assert Grown(o, w, w) by {
        GrownSelf(o, w);
      }
    } else {
      var n := |more| - 1;
      HistoryGrows(env, o, c, x, actions, more[..n]);
      assert (actions + more)[..|actions| + n] == actions + more[..n];
      var w1 := History(env, o, c, x, actions + more[..n]);
      PerformGrows(env, o, c, more[n], w1);
      GrownVia(o, w, w1, Perform(env, o, c, more[n], w1));
    }
  }

  /** Of a node alone, and of the remaining branches of a fork. */
  lemma NodeGrows(env: Env, o: Oracle, c: Cont, x: Bytes, w: World)
    ensures Grown(o, w, ExecNode(env, o, c, x, w).1)
  {
    hide Kept, ExecNode;
    var k := Setting(env, o, c, GrowLaw(o, w), false);
    GrowKept(env, o, c, w);
    GrownSelf(o, w);
    assert Inside(c, c);
    NodeEnds(k, 0, c, x, false, w);
    var (r, w1) := ExecNode(env, o, c, x, w);
    assert k.law(0, StopOf(r), w1);
  }

  lemma BranchesGrow(
      env: Env, o: Oracle, branches: seq<Cont>, x: Bytes, results: seq<(string, Bytes)>, wake: Option<int>, w: World)
    ensures Grown(o, w, ExecBranches(env, o, branches, x, results, wake, w).1)
  {
    hide Kept, ExecBranches;
    var c := Fork("", branches, None);
    var k := Setting(env, o, c, GrowLaw(o, w), false);
    GrowKept(env, o, c, w);
    GrownSelf(o, w);
    assert Inside(c, c);
    BranchesEnd(k, 0, c, branches, x, results, wake, w);
    var (r, w1) := ExecBranches(env, o, branches, x, results, wake, w);
    assert r.Ok? ==> k.law(Latest(0, r.value.1), None, w1);
    assert r.Err? ==> k.law(0, Some(r.error), w1);
  }

  lemma GrownSelf(o: Oracle, w: World)
    ensures Grown(o, w, w)
  {
  }

  /** With a clock that never runs backwards, calls are not made before what they come after. */
  lemma CallsComeLater(o: Oracle, w: World, w': World, i: nat)
    requires Monotone(o) && Grown(o, w, w') && |w.trace| <= i < |w'.trace| && w'.trace[i].Called?
    ensures o.clock(w.tick) <= w'.trace[i].at && o.clock(w.tick) <= o.clock(w'.tick)
  {
    var t: nat :| w.tick <= t < w'.tick && w'.trace[i].at == o.clock(t);
  }

  /** The length of the history before its last action. */
  function Earlier(env: Env, o: Oracle, c: Cont, x: Bytes, actions: seq<Action>): nat {
    if actions == [] then 0 else |History(env, o, c, x, actions[..|actions| - 1]).trace|
  }

  lemma ClockGrows(o: Oracle, s: nat, t: nat)
    requires Monotone(o) && s <= t
    ensures o.clock(s) <= o.clock(t)
  {
  }
}
