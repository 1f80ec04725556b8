/** Over any history of a loop-free tree, a task whose result has been saved is never called again. */
module NoRepeat {
  import opened Prelude
  import opened Continuation
  import opened Semantics
  import opened Snapshots
  import opened Durable
  import opened DurableResume
  import opened Lifecycle
  import opened Parts
  import opened Walks

  predicate LoopFree(c: Cont)
    decreases c, 1
  {
    LoopFreeNode(c) && (Next(c).Some? ==> LoopFree(Next(c).value))
  }

  predicate LoopFreeNode(c: Cont)
    decreases c, 0
  {
    match c
    case Fork(_, branches, _) => forall b :: b in branches ==> LoopFree(b)
    case Branch(_, _, routes, default, _) =>
      (forall k :: k in routes ==> LoopFree(routes[k])) && (default.Some? ==> LoopFree(default.value))
    case Loop(_, _, _, _, _) => false
    case ChildWorkflow(_, child, _) => LoopFree(child)
    case _ => true
  }

  /** No task call in the history comes after a save that holds the task's result. */
  ghost predicate NeverRepeats(trace: seq<Event>) {
    forall i, j :: 0 <= i < j < |trace| && trace[i].Saved? && trace[j].Called? && !trace[j].keyFn ==>
      trace[j].id !in Results(trace[i].snapshot)
  }

  /** Whatever has been saved is still recorded in `done`. */
  ghost predicate Covered(trace: seq<Event>, done: map<string, Bytes>) {
    forall i :: 0 <= i < |trace| && trace[i].Saved? ==> Results(trace[i].snapshot).Keys <= done.Keys
  }

  /** During a walk memory holds everything the store does, and the store everything ever saved. */
  ghost predicate Tidy(w: World) {
    && w.snap.state.InProgress? && Resting(w.saved)
    && NeverRepeats(w.trace) && Covered(w.trace, Results(w.saved))
    && Results(w.saved).Keys <= Results(w.snap).Keys
  }

  lemma TidyStore(w: World, s: Snapshot, t: nat)
    requires Tidy(w) && Resting(s) && Results(w.saved).Keys <= Results(s).Keys <= Results(w.snap).Keys
    ensures Tidy(Store(w.(tick := t), s))
  {
  }

  lemma TidyGuard(o: Oracle, scope: Option<string>, w: World)
    requires Tidy(w)
    ensures var w' := Guard(o, scope, w).1; Tidy(w') && w'.snap == w.snap
  {
    hide NeverRepeats, Covered;
    if w.saved.state.InProgress? {
      TidyStore(w, MarkPaused(w.saved), w.tick + 1);
      TidyStore(w, MarkCancelled(w.saved, scope), w.tick + 1);
    }
  }

  lemma TidySave(o: Oracle, w: World)
    requires Tidy(w)
    ensures var w' := Checkpoint(o, w).1; Tidy(w') && w'.snap == w.snap
  {
    hide NeverRepeats, Covered;
    TidyStore(w, w.snap, w.tick + 1);
  }

  lemma TidyCall(env: Env, o: Oracle, id: string, x: Bytes, keyFn: bool, w: World)
    requires Tidy(w) && (keyFn || id !in Results(w.snap))
    ensures var w' := CallTask(env, o, id, x, keyFn, w).1; Tidy(w') && w'.snap == w.snap
  {
  }

  lemma TidyRecord(o: Oracle, id: string, v: Bytes, w: World)
    requires Tidy(w)
    ensures Tidy(Record(o, id, v, w).1)
  {
    hide NeverRepeats, Covered, Checkpoint;
    TidySave(o, Mark(w, id, v));
  }

  lemma TidyRecordStep(o: Oracle, c: Cont, v: Bytes, w: World)
    requires Tidy(w)
    ensures Tidy(RecordStep(o, c, v, w).1)
  {
    hide NeverRepeats, Covered, Checkpoint;
    var w1 := Mark(w, c.id, v);
    TidySave(o, if Next(c).Some? then MoveTo(w1, AtTask(FirstTaskId(Next(c).value))) else w1);
  }

  lemma TidyDelay(o: Oracle, c: Cont, x: Bytes, w: World)
    requires c.Delay? && Tidy(w)
    ensures Tidy(ParkAtDelay(o, c, x, w).1)
  {
    hide NeverRepeats, Covered, Checkpoint;
    var now := o.clock(w.tick);
    TidySave(o, Mark(MoveTo(w, AtDelay(c.id, now, now + Span(c.duration), SuccessorId(c))), c.id, x));
  }

  lemma TidySignal(o: Oracle, c: Cont, w: World)
    requires c.AwaitSignal? && Tidy(w)
    ensures Tidy(ParkAtSignal(o, c, w).1)
  {
    hide NeverRepeats, Covered, Checkpoint;
    var deadline := if c.timeout.Some? then Some(o.clock(w.tick) + Span(c.timeout.value)) else None;
    TidySave(o, MoveTo(w, AtSignal(c.id, c.signalName, deadline, SuccessorId(c))));
  }

  lemma TidyFinish(env: Env, o: Oracle, c: Cont, results: seq<(string, Bytes)>, wake: Option<int>, w: World)
    requires c.Fork? && Tidy(w)
    ensures Tidy(FinishFork(env, o, c, results, wake, w).1)
  {
    hide NeverRepeats, Covered, Checkpoint, ToMap;
    if wake.Some? {
      TidySave(o, MoveTo(w, AtFork(c.id, ToMap(results), wake.value)));
    }
  }

  lemma TidyTick(w: World)
    requires Tidy(w)
    ensures Tidy(w.(tick := w.tick + 1))
  {
  }

  /** A loop-free tree has no loop anywhere. */
  lemma {:induction false} NoLoopInside(c: Cont, root: Cont)
    requires LoopFree(root) && Inside(c, root)
    ensures !c.Loop?
    decreases root, 1
  {
    if c != root {
      if Beneath(c, root) {
        NoLoopBeneath(c, root);
      } else {
        NoLoopInside(c, Next(root).value);
      }
    }
  }

  lemma {:induction false} NoLoopBeneath(c: Cont, root: Cont)
    requires LoopFreeNode(root) && Beneath(c, root)
    ensures !c.Loop?
    decreases root, 0
  {
    match root
    case Fork(_, branches, _) =>
      var b :| b in branches && Inside(c, b);
      NoLoopInside(c, b);
    case Branch(_, _, routes, default, _) =>
      if k :| k in routes && Inside(c, routes[k]) {
        NoLoopInside(c, routes[k]);
      } else {
        NoLoopInside(c, default.value);
      }
    case ChildWorkflow(_, child, _) => NoLoopInside(c, child);
  }

  ghost function TidyLaw(): Law {
    (alarm, stop, w) => Tidy(w)
  }

  lemma TidyKept(env: Env, o: Oracle, root: Cont)
    requires LoopFree(root)
    ensures Kept(Setting(env, o, root, TidyLaw(), false))
  {
    hide Tidy, Guard, CallTask, Record, RecordStep, ParkAtDelay, ParkAtSignal, FinishFork, NextIteration, Inside,
      LoopFree;
    var law := TidyLaw();
    forall c | Inside(c, root) ensures !c.Loop? {
      NoLoopInside(c, root);
    }
    forall a, scope, w | law(a, None, w) ensures law(a, Guard(o, scope, w).0, Guard(o, scope, w).1) {
      TidyGuard(o, scope, w);
    }
    forall a, id, x, keyFn, w | law(a, None, w) && (keyFn || TaskResult(w.snap, id).None?)
      ensures law(a, None, CallTask(env, o, id, x, keyFn, w).1)
    {
      TidyCall(env, o, id, x, keyFn, w);
    }
    forall a, w, t | law(a, None, w) && t == w.tick + 1 ensures law(a, None, w.(tick := t)) {
      TidyTick(w);
    }
    forall a, id, v, w | law(a, None, w) ensures law(a, StopOf(Record(o, id, v, w).0), Record(o, id, v, w).1) {
      TidyRecord(o, id, v, w);
    }
    forall a, c, v, w | law(a, None, w) ensures law(a, StopOf(RecordStep(o, c, v, w).0), RecordStep(o, c, v, w).1) {
      TidyRecordStep(o, c, v, w);
    }
    forall a, c: Cont, x, w | law(a, None, w) && c.Delay?
      ensures law(a, StopOf(ParkAtDelay(o, c, x, w).0), ParkAtDelay(o, c, x, w).1)
    {
      TidyDelay(o, c, x, w);
    }
    forall a, c: Cont, w | law(a, None, w) && c.AwaitSignal?
      ensures law(a, StopOf(ParkAtSignal(o, c, w).0), ParkAtSignal(o, c, w).1)
    {
      TidySignal(o, c, w);
    }
    forall a, c: Cont, results, wake, w | law(Max(a, wake), None, w) && c.Fork?
      ensures var (r, w') := FinishFork(env, o, c, results, Some(wake), w); law(a, StopOf(r), w')
    {
      TidyFinish(env, o, c, results, Some(wake), w);
    }
  }

  // ----- whole histories -----

  /** Between attempts only the store counts; terminal states make no further calls. */
  ghost predicate TidyHistory(w: World) {
    NeverRepeats(w.trace) && (Resting(w.saved) ==> Covered(w.trace, Results(w.saved)))
  }

  /** Saving anything at all makes no call. */
  lemma SaveAny(o: Oracle, w: World)
    requires TidyHistory(w) && (Resting(w.snap) ==> Resting(w.saved) && Results(w.saved).Keys <= Results(w.snap).Keys)
    ensures TidyHistory(Checkpoint(o, w).1)
  {
  }

  lemma TidyFinalize(o: Oracle, r: ExecResult, w: World)
    requires Tidy(w)
    ensures TidyHistory(Finalize(o, r, w))
  {
    hide NeverRepeats, Covered, Checkpoint;
    if r.Ok? {
      SaveAny(o, w.(snap := MarkCompleted(w.snap, r.value)));
    } else {
      SaveAny(o, w.(snap := MarkFailed(w.snap)));
    }
  }

  lemma TidyResolve(o: Oracle, w: World)
    requires Tidy(w)
    ensures var (hold, w1) := ResolveParked(o, w); TidyHistory(w1) && (hold.None? ==> Tidy(w1))
  {
    hide NeverRepeats, Covered, Guard, Checkpoint;
    var p := w.snap.state.position;
    if p.AtDelay? || p.AtFork? || p.AtSignal? {
      var scope := Some(if p.AtDelay? then p.delayId else if p.AtFork? then p.forkId else p.signalId);
      TidyGuard(o, scope, w);
      var (g, w1) := Guard(o, scope, w);
      if g.None? {
        match p
        case AtDelay(delayId, _, _, next) =>
          if next.Some? {
            TidySave(o, MoveTo(w1, AtTask(next.value)));
          } else {
            var output := TaskResult(w1.snap, delayId);
            SaveAny(o, w1.(snap := MarkCompleted(w1.snap, if output.Some? then output.value else [])));
          }
        case AtFork(_, _, _) => TidySave(o, w1);
        case AtSignal(_, name, _, _) =>
          var w2 := w1.(tick := w1.tick + 1);
          TidyAnswer(o, p, [], w2);
          if o.mail(w1.tick, name).Delivered? {
            TidyAnswer(o, p, o.mail(w1.tick, name).payload, w2);
          }
      }
    }
  }

  lemma TidyAnswer(o: Oracle, p: Position, payload: Bytes, w: World)
    requires p.AtSignal? && Tidy(w)
    ensures var (hold, w1) := AnswerSignal(o, p, payload, w); TidyHistory(w1) && (hold.None? ==> Tidy(w1))
  {
    hide NeverRepeats, Covered, Checkpoint;
    var w1 := Mark(w, p.signalId, payload);
    if p.nextTaskId.Some? {
      TidySave(o, MoveTo(w1, AtTask(p.nextTaskId.value)));
    } else {
      SaveAny(o, w1.(snap := MarkCompleted(w1.snap, payload)));
    }
  }

  lemma TidyRest(env: Env, o: Oracle, root: Cont)
    ensures KeptBetween(Setting(env, o, root, TidyLaw(), false), w => TidyHistory(w))
  {
    hide NeverRepeats, Covered, ResolveParked, Checkpoint, Finalize;
    var k, rest := Setting(env, o, root, TidyLaw(), false), w => TidyHistory(w);
    forall w | rest(w) && w.snap == w.saved && w.saved.state.InProgress?
      ensures var (hold, w') := ResolveParked(o, w); if hold.None? then k.law(0, None, w') else rest(w')
    {
      TidyResolve(o, w);
    }
    forall r, w | k.law(0, StopOf(r), w) ensures rest(Finalize(o, r, w)) {
      TidyFinalize(o, r, w);
    }
    forall w | rest(w) && w.saved.state.Paused? ensures rest(Checkpoint(o, w.(snap := MarkUnpaused(w.saved))).1) {
      SaveAny(o, w.(snap := MarkUnpaused(w.saved)));
    }
  }

  /** No completed work repeats, over any launch, resumes and unpauses of a loop-free tree. */
  lemma CompletedWorkNeverRepeats(env: Env, o: Oracle, c: Cont, x: Bytes, actions: seq<Action>)
    requires LoopFree(c)
    ensures NeverRepeats(History(env, o, c, x, actions).trace)
  {
    hide Kept, KeptBetween, History, LoopFree;
    assert Tidy(Created(c, x));
    TidyKept(env, o, c);
    TidyRest(env, o, c);
    HistoryRests(Setting(env, o, c, TidyLaw(), false), w => TidyHistory(w), x, actions);
  }
}
