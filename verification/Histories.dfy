/** The same for whole histories of launches, resumes and unpauses. */
module Histories {
  import opened Prelude
  import opened Continuation
  import opened Semantics
  import opened Snapshots
  import opened Durable
  import opened Lifecycle
  import opened NoRepeat
  import opened Growth
  import opened Runs

  // ----- histories only grow -----

  lemma SaveForward(o: Oracle, s: Snapshot, w: World)
    ensures Forward(w, Checkpoint(o, w.(snap := s)).1) && Checkpoint(o, w.(snap := s)).1.tick == w.tick + 1
  {
    var w1 := w.(snap := s);
    ForwardStill(w, w1);
    CheckpointForward(o, w1);
    hide Forward, Checkpoint;
    ForwardVia(w, w1, Checkpoint(o, w1).1);
  }

  lemma AnswerForward(o: Oracle, p: Position, payload: Bytes, w: World)
    requires p.AtSignal?
    ensures Forward(w, AnswerSignal(o, p, payload, w).1)
  {
    hide Forward, Checkpoint;
    var w1 := Mark(w, p.signalId, payload);
    if p.nextTaskId.Some? {
      SaveForward(o, MoveTo(w1, AtTask(p.nextTaskId.value)).snap, w);
    } else {
      SaveForward(o, MarkCompleted(w1.snap, payload), w);
    }
  }

  lemma ResolveForward(o: Oracle, w: World)
    requires w.snap.state.InProgress?
    ensures Forward(w, ResolveParked(o, w).1)
  {
    hide ResolveParked, Grown;
    ResolveGrows(o, w);
    GrownForward(o, w, ResolveParked(o, w).1);
  }

  lemma FinalizeForward(o: Oracle, r: ExecResult, w: World)
    ensures Forward(w, Finalize(o, r, w))
  {
    ForwardStill(w, w);
    hide Forward, Checkpoint;
    SaveForward(o, MarkFailed(w.snap), w);
    if r.Ok? {
      SaveForward(o, MarkCompleted(w.snap, r.value), w);
    }
  }

  lemma WalkForward(env: Env, o: Oracle, c: Cont, x: Bytes, w: World)
    ensures Forward(w, Walk(env, o, c, x, w).1)
  {
    hide Walk, Grown;
    WalkGrows(env, o, c, x, w);
    GrownForward(o, w, Walk(env, o, c, x, w).1);
  }

  lemma PerformForward(env: Env, o: Oracle, c: Cont, a: Action, w: World)
    ensures Forward(w, Perform(env, o, c, a, w))
  {
    hide Perform, Grown;
    PerformGrows(env, o, c, a, w);
    GrownForward(o, w, Perform(env, o, c, a, w));
  }

  lemma HistoryForward(env: Env, o: Oracle, c: Cont, x: Bytes, actions: seq<Action>)
    ensures Forward(Created(c, x), History(env, o, c, x, actions))
  {
    hide Forward, Walk, Perform;
    WalkForward(env, o, c, x, Created(c, x));
    var w := History(env, o, c, x, []);
    HistoryGrows(env, o, c, x, [], actions);
    assert [] + actions == actions;
    GrownForward(o, w, History(env, o, c, x, actions));
    ForwardVia(Created(c, x), w, History(env, o, c, x, actions));
  }

  // ----- histories depend on the answers they get, and on nothing else -----

  lemma SaveLocal(env: Env, o: Oracle, env': Env, o': Oracle, s: Snapshot, w: World)
    requires SameAnswers(env, o, env', o', w, Checkpoint(o, w.(snap := s)).1)
    ensures Checkpoint(o', w.(snap := s)) == Checkpoint(o, w.(snap := s))
  {
    CheckpointLocal(env, o, env', o', w.(snap := s));
  }

  lemma AnswerLocal(env: Env, o: Oracle, env': Env, o': Oracle, p: Position, payload: Bytes, w: World)
    requires p.AtSignal? && SameAnswers(env, o, env', o', w, AnswerSignal(o, p, payload, w).1)
    ensures AnswerSignal(o', p, payload, w) == AnswerSignal(o, p, payload, w)
  {
    hide Checkpoint, SameAnswers;
    var w1 := Mark(w, p.signalId, payload);
    if p.nextTaskId.Some? {
      SaveLocal(env, o, env', o', MoveTo(w1, AtTask(p.nextTaskId.value)).snap, w);
    } else {
      SaveLocal(env, o, env', o', MarkCompleted(w1.snap, payload), w);
    }
  }

  lemma ResolveDelayLocal(env: Env, o: Oracle, env': Env, o': Oracle, w: World)
    requires w.snap.state.InProgress? && w.snap.state.position.AtDelay? && o'.clock == o.clock
    requires SameAnswers(env, o, env', o', w, ResolveParked(o, w).1)
    ensures ResolveParked(o', w) == ResolveParked(o, w)
  {
    var we := ResolveParked(o, w).1;
    var p := w.snap.state.position;
    hide Forward, Checkpoint, Guard, SameAnswers;
    GuardForward(o, Some(p.delayId), w);
    var (g, w1) := Guard(o, Some(p.delayId), w);
    if g.None? && o.clock(w1.tick) >= p.wakeAt {
      var output := TaskResult(w1.snap, p.delayId);
      var s := if p.nextTaskId.Some? then MoveTo(w1, AtTask(p.nextTaskId.value)).snap
               else MarkCompleted(w1.snap, if output.Some? then output.value else []);
      SaveForward(o, s, w1);
      SameSplit(env, o, env', o', w, w1, we);
      SaveLocal(env, o, env', o', s, w1);
    }
    GuardLocal(env, o, env', o', Some(p.delayId), w);
  }

  lemma ResolveForkLocal(env: Env, o: Oracle, env': Env, o': Oracle, w: World)
    requires w.snap.state.InProgress? && w.snap.state.position.AtFork? && o'.clock == o.clock
    requires SameAnswers(env, o, env', o', w, ResolveParked(o, w).1)
    ensures ResolveParked(o', w) == ResolveParked(o, w)
  {
    var we := ResolveParked(o, w).1;
    var p := w.snap.state.position;
    hide Forward, Checkpoint, Guard, SameAnswers;
    GuardForward(o, Some(p.forkId), w);
    var (g, w1) := Guard(o, Some(p.forkId), w);
    if g.None? && o.clock(w1.tick) >= p.wakeAt {
      CheckpointForward(o, w1);
      SameSplit(env, o, env', o', w, w1, we);
      CheckpointLocal(env, o, env', o', w1);
    }
    GuardLocal(env, o, env', o', Some(p.forkId), w);
  }

  lemma ResolveSignalLocal(env: Env, o: Oracle, env': Env, o': Oracle, w: World)
    requires w.snap.state.InProgress? && w.snap.state.position.AtSignal? && o'.clock == o.clock
    requires SameAnswers(env, o, env', o', w, ResolveParked(o, w).1)
    ensures ResolveParked(o', w) == ResolveParked(o, w)
  {
    var we := ResolveParked(o, w).1;
    var p := w.snap.state.position;
    hide Forward, Checkpoint, Guard, AnswerSignal;
    GuardForward(o, Some(p.signalId), w);
    var (g, w1) := Guard(o, Some(p.signalId), w);
    if g.None? {
      var w2 := w1.(tick := w1.tick + 1);
      ForwardStill(w1, w2);
      ForwardStill(w2, w2);
      var mail := o.mail(w1.tick, p.signalName);
      var payload := if mail.Delivered? then mail.payload else [];
      AnswerForward(o, p, payload, w2);
      ForwardVia(w1, w2, we);
      SameSplit(env, o, env', o', w, w1, we);
      SameSplit(env, o, env', o', w1, w2, we);
      assert SameAt(o, o', w1.tick);
      if we == AnswerSignal(o, p, payload, w2).1 {
        AnswerLocal(env, o, env', o', p, payload, w2);
      }
    }
    GuardLocal(env, o, env', o', Some(p.signalId), w);
  }

  lemma ResolveLocal(env: Env, o: Oracle, env': Env, o': Oracle, w: World)
    requires w.snap.state.InProgress? && o'.clock == o.clock
    requires SameAnswers(env, o, env', o', w, ResolveParked(o, w).1)
    ensures ResolveParked(o', w) == ResolveParked(o, w)
  {
    match w.snap.state.position
    case AtDelay(_, _, _, _) => ResolveDelayLocal(env, o, env', o', w);
    case AtFork(_, _, _) => ResolveForkLocal(env, o, env', o', w);
    case AtSignal(_, _, _, _) => ResolveSignalLocal(env, o, env', o', w);
    case _ =>
  }

  lemma FinalizeLocal(env: Env, o: Oracle, env': Env, o': Oracle, r: ExecResult, w: World)
    requires SameAnswers(env, o, env', o', w, Finalize(o, r, w))
    ensures Finalize(o', r, w) == Finalize(o, r, w)
  {
    hide Checkpoint, SameAnswers;
    if r.Ok? {
      SaveLocal(env, o, env', o', MarkCompleted(w.snap, r.value), w);
    } else if r.error.BackendFailure? || r.error.Raised? {
      SaveLocal(env, o, env', o', MarkFailed(w.snap), w);
    }
  }

  lemma WalkLocal(env: Env, o: Oracle, env': Env, o': Oracle, c: Cont, x: Bytes, w: World)
    requires LoopFree(c) && SameAnswers(env, o, env', o', w, Walk(env, o, c, x, w).1)
    ensures Walk(env', o', c, x, w) == Walk(env, o, c, x, w)
  {
    hide Forward, Exec, Finalize, SameAnswers;
    ExecForward(env, o, c, x, w);
    var (r, w1) := Exec(env, o, c, x, w);
    FinalizeForward(o, r, w1);
    SameSplit(env, o, env', o', w, w1, Finalize(o, r, w1));
    ExecLocal(env, o, env', o', c, x, w);
    FinalizeLocal(env, o, env', o', r, w1);
  }

  lemma AttemptLocal(env: Env, o: Oracle, env': Env, o': Oracle, c: Cont, w: World)
    requires LoopFree(c) && o'.clock == o.clock && SameAnswers(env, o, env', o', w, Attempt(env, o, c, w).1)
    ensures Attempt(env', o', c, w) == Attempt(env, o, c, w)
  {
    var w1 := w.(snap := w.saved);
    var we := Attempt(env, o, c, w).1;
    assert SameAnswers(env, o, env', o', w1, we);
    hide Forward, ResolveParked, Walk, SameAnswers;
    if w1.snap.state.InProgress? {
      ResolveForward(o, w1);
      var (hold, w2) := ResolveParked(o, w1);
      if hold.None? && ResumeInput(w2.snap).Some? {
        var x := ResumeInput(w2.snap).value;
        WalkForward(env, o, c, x, w2);
        SameSplit(env, o, env', o', w1, w2, we);
        WalkLocal(env, o, env', o', c, x, w2);
      }
      ResolveLocal(env, o, env', o', w1);
    }
  }

  lemma PerformLocal(env: Env, o: Oracle, env': Env, o': Oracle, c: Cont, a: Action, w: World)
    requires LoopFree(c) && o'.clock == o.clock && SameAnswers(env, o, env', o', w, Perform(env, o, c, a, w))
    ensures Perform(env', o', c, a, w) == Perform(env, o, c, a, w)
  {
    hide Attempt, Checkpoint, SameAnswers;
    if a.Resume? {
      AttemptLocal(env, o, env', o', c, w);
    } else if w.saved.state.Paused? {
      SaveLocal(env, o, env', o', MarkUnpaused(w.saved), w);
    }
  }

  /** Surroundings that give the answers a history got make the same history. */
  lemma {:induction false} HistoryLocal(
      env: Env, o: Oracle, env': Env, o': Oracle, c: Cont, x: Bytes, actions: seq<Action>)
    requires LoopFree(c) && o'.clock == o.clock
    requires SameAnswers(env, o, env', o', Created(c, x), History(env, o, c, x, actions))
    ensures History(env', o', c, x, actions) == History(env, o, c, x, actions)
    decreases |actions|
  {
    hide Forward, Walk, Perform, SameAnswers;
    if actions == [] {
      WalkLocal(env, o, env', o', c, x, Created(c, x));
    } else {
      var n := |actions| - 1;
      HistoryForward(env, o, c, x, actions[..n]);
      var w := History(env, o, c, x, actions[..n]);
      PerformForward(env, o, c, actions[n], w);
      SameSplit(env, o, env', o', Created(c, x), w, Perform(env, o, c, actions[n], w));
      HistoryLocal(env, o, env', o', c, x, actions[..n]);
      PerformLocal(env, o, env', o', c, actions[n], w);
    }
  }

  // ----- dying right after a save -----

  lemma SaveCut(o: Oracle, s: Snapshot, w: World, i: nat)
    requires |w.trace| <= i < |Checkpoint(o, w.(snap := s)).1.trace|
    ensures Checkpoint(o, w.(snap := s)).1.trace[i] == Saved(s)
    ensures
      var (f, w') := Checkpoint(CutAt(o, w.tick), w.(snap := s));
      f.Some? && w'.saved == s
  {
    CheckpointCut(o, w.(snap := s), i);
  }

  lemma AnswerCut(o: Oracle, p: Position, payload: Bytes, w: World, i: nat)
    requires p.AtSignal? && |w.trace| <= i < |AnswerSignal(o, p, payload, w).1.trace|
    ensures
      var (hold, w') := AnswerSignal(CutAt(o, w.tick), p, payload, w);
      hold.Some? && AnswerSignal(o, p, payload, w).1.trace[i] == Saved(w'.saved)
  {
    hide Checkpoint, CutAt;
    var w1 := Mark(w, p.signalId, payload);
    if p.nextTaskId.Some? {
      SaveCut(o, MoveTo(w1, AtTask(p.nextTaskId.value)).snap, w, i);
    } else {
      SaveCut(o, MarkCompleted(w1.snap, payload), w, i);
    }
  }

  lemma ResolveCut(env: Env, o: Oracle, w: World, i: nat) returns (t: nat)
    requires w.snap.state.InProgress? && |w.trace| <= i < |ResolveParked(o, w).1.trace|
    ensures t >= w.tick
    ensures
      var (hold, w') := ResolveParked(CutAt(o, t), w);
      hold.Some? && ResolveParked(o, w).1.trace[i] == Saved(w'.saved)
  {
    var p := w.snap.state.position;
    var scope := if p.AtDelay? then p.delayId else if p.AtFork? then p.forkId
      else if p.AtSignal? then p.signalId else "";
    GuardForward(o, Some(scope), w);
    var (g, w1) := Guard(o, Some(scope), w);
    t := if p.AtSignal? then w1.tick + 1 else w1.tick;
    CutFree(env, o, t, Some(scope), "", [], false, w);
    assert CutAt(o, t).clock == o.clock && CutAt(o, t).mail == o.mail;
    hide Checkpoint, Guard, AnswerSignal, CutAt;
    if i < |w1.trace| {
      GuardCut(o, Some(scope), w, i);
    } else {
      match p
      case AtDelay(delayId, _, _, next) =>
        var output := TaskResult(w1.snap, delayId);
        var s := if next.Some? then MoveTo(w1, AtTask(next.value)).snap
                 else MarkCompleted(w1.snap, if output.Some? then output.value else []);
        SaveCut(o, s, w1, i);
      case AtFork(_, _, _) => CheckpointCut(o, w1, i);
      case AtSignal(_, name, _, _) =>
        var w2 := w1.(tick := w1.tick + 1);
        var mail := o.mail(w1.tick, name);
        AnswerCut(o, p, if mail.Delivered? then mail.payload else [], w2, i);
    }
  }

  lemma FinalizeCut(o: Oracle, r: ExecResult, w: World, i: nat)
    requires |w.trace| <= i < |Finalize(o, r, w).trace|
    ensures Finalize(o, r, w).trace[i] == Saved(Finalize(CutAt(o, w.tick), r, w).saved)
  {
    hide Checkpoint, CutAt;
    SaveCut(o, if r.Ok? then MarkCompleted(w.snap, r.value) else MarkFailed(w.snap), w, i);
  }

  lemma WalkCut(env: Env, o: Oracle, c: Cont, x: Bytes, w: World, i: nat) returns (t: nat)
    requires LoopFree(c) && |w.trace| <= i < |Walk(env, o, c, x, w).1.trace| && Walk(env, o, c, x, w).1.trace[i].Saved?
    ensures t >= w.tick && Walk(env, o, c, x, w).1.trace[i] == Saved(Walk(env, CutAt(o, t), c, x, w).1.saved)
  {
    ExecForward(env, o, c, x, w);
    hide Exec, CutAt;
    var (r, w1) := Exec(env, o, c, x, w);
    FinalizeForward(o, r, w1);
    if i < |w1.trace| {
      t := ExecCut(env, o, c, x, w, i);
    } else {
      t := w1.tick;
      CutSame(env, o, t, w, w1);
      ExecLocal(env, o, env, CutAt(o, t), c, x, w);
      FinalizeCut(o, r, w1, i);
    }
  }

  lemma AttemptCut(env: Env, o: Oracle, c: Cont, w: World, i: nat) returns (t: nat)
    requires LoopFree(c) && |w.trace| <= i < |Attempt(env, o, c, w).1.trace| && Attempt(env, o, c, w).1.trace[i].Saved?
    ensures t >= w.tick && Attempt(env, o, c, w).1.trace[i] == Saved(Attempt(env, CutAt(o, t), c, w).1.saved)
  {
    var w1 := w.(snap := w.saved);
    ResolveForward(o, w1);
    hide ResolveParked, Walk, CutAt;
    var (hold, w2) := ResolveParked(o, w1);
    if hold.None? && ResumeInput(w2.snap).Some? {
      var x := ResumeInput(w2.snap).value;
      WalkForward(env, o, c, x, w2);
      if i >= |w2.trace| {
        t := WalkCut(env, o, c, x, w2, i);
        CutSame(env, o, t, w1, w2);
        assert CutAt(o, t).clock == o.clock by {
          CutClock(o, t);
        }
        ResolveLocal(env, o, env, CutAt(o, t), w1);
        return;
      }
    }
    t := ResolveCut(env, o, w1, i);
  }

  lemma CutClock(o: Oracle, t: nat)
    ensures CutAt(o, t).clock == o.clock && CutAt(o, t).mail == o.mail
  {
  }

  lemma PerformCut(env: Env, o: Oracle, c: Cont, a: Action, w: World, i: nat) returns (t: nat)
    requires LoopFree(c) && |w.trace| <= i < |Perform(env, o, c, a, w).trace|
    requires Perform(env, o, c, a, w).trace[i].Saved?
    ensures t >= w.tick && Perform(env, o, c, a, w).trace[i] == Saved(Perform(env, CutAt(o, t), c, a, w).saved)
  {
    hide Attempt, Checkpoint, CutAt;
    if a.Resume? {
      t := AttemptCut(env, o, c, w, i);
    } else {
      t := w.tick;
      SaveCut(o, MarkUnpaused(w.saved), w, i);
    }
  }

  /** Whatever snapshot a history has saved is what some other history, cut short right there, ends with. */
  lemma {:induction false} HistoryCut(env: Env, o: Oracle, c: Cont, x: Bytes, actions: seq<Action>, i: nat)
      returns (t: nat, n: nat)
    requires LoopFree(c) && 1 <= i < |History(env, o, c, x, actions).trace|
    requires History(env, o, c, x, actions).trace[i].Saved?
    ensures n <= |actions|
    ensures History(env, o, c, x, actions).trace[i] == Saved(History(env, CutAt(o, t), c, x, actions[..n]).saved)
    decreases |actions|
  {
    hide Walk, Perform, CutAt;
    if actions == [] {
      t := WalkCut(env, o, c, x, Created(c, x), i);
      n := 0;
    } else {
      var m := |actions| - 1;
      HistoryForward(env, o, c, x, actions[..m]);
      var w := History(env, o, c, x, actions[..m]);
      PerformForward(env, o, c, actions[m], w);
      if i < |w.trace| {
        t, n := HistoryCut(env, o, c, x, actions[..m], i);
        assert actions[..m][..n] == actions[..n];
      } else {
        t := PerformCut(env, o, c, actions[m], w, i);
        n := |actions|;
        assert actions[..n] == actions;
        CutSame(env, o, t, Created(c, x), w);
        CutClock(o, t);
        HistoryLocal(env, o, env, CutAt(o, t), c, x, actions[..m]);
      }
    }
  }
}
