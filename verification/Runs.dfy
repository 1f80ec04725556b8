/**
 How walks depend on their surroundings: they only add to the history, they look at nothing but the
 answers they get, and dying right after any save leaves that save in the store.
 */
module Runs {
  import opened Prelude
  import opened Continuation
  import opened Semantics
  import opened Snapshots
  import opened Durable
  import opened NoRepeat
  import opened Growth

  // ----- histories only grow -----

  ghost predicate Forward(w: World, w': World) {
    w.tick <= w'.tick && w.trace <= w'.trace && (Coherent(w) ==> Coherent(w'))
  }

  /** Only the snapshot in memory and the step counter change. */
  lemma ForwardStill(w: World, w': World)
    requires w'.trace == w.trace && w'.saved == w.saved && w.tick <= w'.tick
    ensures Forward(w, w')
  {
  }

  lemma StoreForward(w: World, s: Snapshot)
    ensures Forward(w, Store(w, s))
  {
    assert (w.trace + [Saved(s)])[..|w.trace|] == w.trace;
  }

  lemma GuardForward(o: Oracle, scope: Option<string>, w: World)
    ensures Forward(w, Guard(o, scope, w).1) && Guard(o, scope, w).1.tick == w.tick + 1
  {
    var w1 := w.(tick := w.tick + 1);
    ForwardStill(w, w1);
    StoreForward(w1, MarkCancelled(w.saved, scope));
    StoreForward(w1, MarkPaused(w.saved));
    hide Forward;
    ForwardVia(w, w1, Store(w1, MarkCancelled(w.saved, scope)));
    ForwardVia(w, w1, Store(w1, MarkPaused(w.saved)));
  }

  lemma ForwardVia(w: World, w1: World, w2: World)
    requires Forward(w, w1) && Forward(w1, w2)
    ensures Forward(w, w2)
  {
  }

  lemma CheckpointForward(o: Oracle, w: World)
    ensures Forward(w, Checkpoint(o, w).1) && Checkpoint(o, w).1.tick == w.tick + 1
  {
    var w1 := w.(tick := w.tick + 1);
    ForwardStill(w, w1);
    StoreForward(w1, w.snap);
    hide Forward;
    ForwardVia(w, w1, Store(w1, w.snap));
  }

  lemma CallForward(env: Env, o: Oracle, id: string, x: Bytes, keyFn: bool, w: World)
    ensures Forward(w, CallTask(env, o, id, x, keyFn, w).1) && CallTask(env, o, id, x, keyFn, w).1.tick == w.tick + 1
  {
    var e := Called(id, x, keyFn, o.clock(w.tick));
    assert (w.trace + [e])[..|w.trace|] == w.trace;
  }

  lemma RecordForward(o: Oracle, id: string, v: Bytes, w: World)
    ensures Forward(w, Record(o, id, v, w).1)
  {
    ForwardStill(w, Mark(w, id, v));
    CheckpointForward(o, Mark(w, id, v));
    hide Forward, Checkpoint;
    ForwardVia(w, Mark(w, id, v), Checkpoint(o, Mark(w, id, v)).1);
  }

  /** The world in which a finished node has been marked, before the save. */
  function Stepped(c: Cont, v: Bytes, w: World): World {
    var w1 := Mark(w, c.id, v);
    if Next(c).Some? then MoveTo(w1, AtTask(FirstTaskId(Next(c).value))) else w1
  }

  lemma RecordStepForward(o: Oracle, c: Cont, v: Bytes, w: World)
    ensures Forward(w, RecordStep(o, c, v, w).1)
  {
    var w1 := Stepped(c, v, w);
    ForwardStill(w, w1);
    CheckpointForward(o, w1);
    hide Forward, Checkpoint;
    ForwardVia(w, w1, Checkpoint(o, w1).1);
  }

  lemma ParkSignalForward(o: Oracle, c: Cont, w: World)
    requires c.AwaitSignal?
    ensures Forward(w, ParkAtSignal(o, c, w).1)
  {
    hide Forward, Checkpoint;
    var deadline := if c.timeout.Some? then Some(o.clock(w.tick) + Span(c.timeout.value)) else None;
    var w1 := MoveTo(w, AtSignal(c.id, c.signalName, deadline, SuccessorId(c)));
    ForwardStill(w, w1);
    CheckpointForward(o, w1);
    ForwardVia(w, w1, Checkpoint(o, w1).1);
  }

  lemma FinishForkForward(env: Env, o: Oracle, c: Cont, results: seq<(string, Bytes)>, wake: Option<int>, w: World)
    requires c.Fork?
    ensures Forward(w, FinishFork(env, o, c, results, wake, w).1)
  {
    ForwardStill(w, w);
    hide Forward, Checkpoint;
    if wake.Some? {
      var w1 := MoveTo(w, AtFork(c.id, ToMap(results), wake.value));
      ForwardStill(w, w1);
      CheckpointForward(o, w1);
      ForwardVia(w, w1, Checkpoint(o, w1).1);
    }
  }

  lemma FinishBranchForward(env: Env, o: Oracle, id: string, key: string, r: ExecResult, w: World)
    ensures Forward(w, FinishBranch(env, o, id, key, r, w).1)
  {
    ForwardStill(w, w);
    hide Forward, Record;
    if r.Ok? && env.encodeEnvelope(key, r.value).Ok? {
      RecordForward(o, id, env.encodeEnvelope(key, r.value).value, w);
    }
  }

  lemma GrownForward(o: Oracle, w: World, w': World)
    requires Grown(o, w, w')
    ensures Forward(w, w')
  {
    assert w'.trace[..|w.trace|] == w.trace;
  }

  lemma ExecForward(env: Env, o: Oracle, c: Cont, x: Bytes, w: World)
    ensures Forward(w, Exec(env, o, c, x, w).1)
  {
    hide Exec, Grown;
    ExecGrows(env, o, c, x, w);
    GrownForward(o, w, Exec(env, o, c, x, w).1);
  }

  lemma NodeForward(env: Env, o: Oracle, c: Cont, x: Bytes, w: World)
    ensures Forward(w, ExecNode(env, o, c, x, w).1)
  {
    hide ExecNode, Grown;
    NodeGrows(env, o, c, x, w);
    GrownForward(o, w, ExecNode(env, o, c, x, w).1);
  }

  lemma BranchesForward(
      env: Env, o: Oracle, branches: seq<Cont>, x: Bytes, results: seq<(string, Bytes)>, wake: Option<int>, w: World)
    ensures Forward(w, ExecBranches(env, o, branches, x, results, wake, w).1)
  {
    hide ExecBranches, Grown;
    BranchesGrow(env, o, branches, x, results, wake, w);
    GrownForward(o, w, ExecBranches(env, o, branches, x, results, wake, w).1);
  }

  // ----- walks depend on the answers they get, and on nothing else -----

  ghost predicate SameAt(o: Oracle, o': Oracle, t: nat) {
    && o'.guard(t) == o.guard(t) && o'.save(t) == o.save(t) && o'.call(t) == o.call(t) && o'.clock(t) == o.clock(t)
    && forall name :: o'.mail(t, name) == o.mail(t, name)
  }

  /** Between `w` and `w'`, both surroundings give the same answers. */
  ghost predicate SameAnswers(env: Env, o: Oracle, env': Env, o': Oracle, w: World, w': World) {
    && env' == env.(task := env'.task)
    && (forall t: nat :: w.tick <= t < w'.tick ==> SameAt(o, o', t))
    && (forall i :: |w.trace| <= i < |w'.trace| && w'.trace[i].Called? ==>
          env'.task(w'.trace[i].id, w'.trace[i].input) == env.task(w'.trace[i].id, w'.trace[i].input))
  }

  lemma SameSplit(env: Env, o: Oracle, env': Env, o': Oracle, w: World, w1: World, w2: World)
    requires Forward(w, w1) && Forward(w1, w2) && SameAnswers(env, o, env', o', w, w2)
    ensures SameAnswers(env, o, env', o', w, w1) && SameAnswers(env, o, env', o', w1, w2)
  {
    forall i | |w.trace| <= i < |w1.trace| && w1.trace[i].Called?
      ensures env'.task(w1.trace[i].id, w1.trace[i].input) == env.task(w1.trace[i].id, w1.trace[i].input)
    {
      assert w1.trace[i] == w2.trace[i];
    }
  }

  lemma GuardLocal(env: Env, o: Oracle, env': Env, o': Oracle, scope: Option<string>, w: World)
    requires SameAnswers(env, o, env', o', w, Guard(o, scope, w).1)
    ensures Guard(o', scope, w) == Guard(o, scope, w)
  {
    GuardForward(o, scope, w);
    assert SameAt(o, o', w.tick);
  }

  lemma CheckpointLocal(env: Env, o: Oracle, env': Env, o': Oracle, w: World)
    requires SameAnswers(env, o, env', o', w, Checkpoint(o, w).1)
    ensures Checkpoint(o', w) == Checkpoint(o, w)
  {
    CheckpointForward(o, w);
    assert SameAt(o, o', w.tick);
  }

  lemma CallLocal(env: Env, o: Oracle, env': Env, o': Oracle, id: string, x: Bytes, keyFn: bool, w: World)
    requires SameAnswers(env, o, env', o', w, CallTask(env, o, id, x, keyFn, w).1)
    ensures CallTask(env', o', id, x, keyFn, w) == CallTask(env, o, id, x, keyFn, w)
  {
    CallForward(env, o, id, x, keyFn, w);
    assert SameAt(o, o', w.tick);
    var w1 := CallTask(env, o, id, x, keyFn, w).1;
    if !o.call(w.tick).LostBefore? {
      assert w1.trace[|w.trace|] == Called(id, x, keyFn, o.clock(w.tick));
    }
  }

  lemma RecordLocal(env: Env, o: Oracle, env': Env, o': Oracle, id: string, v: Bytes, w: World)
    requires SameAnswers(env, o, env', o', w, Record(o, id, v, w).1)
    ensures Record(o', id, v, w) == Record(o, id, v, w)
  {
    CheckpointLocal(env, o, env', o', Mark(w, id, v));
  }

  lemma RecordStepLocal(env: Env, o: Oracle, env': Env, o': Oracle, c: Cont, v: Bytes, w: World)
    requires SameAnswers(env, o, env', o', w, RecordStep(o, c, v, w).1)
    ensures RecordStep(o', c, v, w) == RecordStep(o, c, v, w)
  {
    hide Checkpoint;
    CheckpointLocal(env, o, env', o', Stepped(c, v, w));
  }

  lemma TaskLocal(env: Env, o: Oracle, env': Env, o': Oracle, c: Cont, x: Bytes, w: World)
    requires c.Task? && SameAnswers(env, o, env', o', w, ExecTask(env, o, c, x, w).1)
    ensures ExecTask(env', o', c, x, w) == ExecTask(env, o, c, x, w)
  {
    hide Forward, Guard, CallTask, RecordStep, SameAnswers;
    var we := ExecTask(env, o, c, x, w).1;
    var (g, w1) := Guard(o, Some(c.id), w);
    GuardForward(o, Some(c.id), w);
    if g.None? && TaskResult(w1.snap, c.id).None? {
      var (v, w2) := CallTask(env, o, c.id, x, false, w1);
      CallForward(env, o, c.id, x, false, w1);
      if v.Ok? {
        var (r, w3) := RecordStep(o, c, v.value, w2);
        RecordStepForward(o, c, v.value, w2);
        GuardForward(o, None, w3);
        ForwardVia(w1, w2, w3);
        ForwardVia(w1, w3, Guard(o, None, w3).1);
        ForwardVia(w2, w3, Guard(o, None, w3).1);
        SameSplit(env, o, env', o', w, w1, we);
        SameSplit(env, o, env', o', w1, w2, we);
        if r.Ok? {
          SameSplit(env, o, env', o', w2, w3, we);
          GuardLocal(env, o, env', o', None, w3);
        }
        RecordStepLocal(env, o, env', o', c, v.value, w2);
      } else {
        SameSplit(env, o, env', o', w, w1, we);
      }
      CallLocal(env, o, env', o', c.id, x, false, w1);
    }
    GuardLocal(env, o, env', o', Some(c.id), w);
  }

  lemma DelayLocal(env: Env, o: Oracle, env': Env, o': Oracle, c: Cont, x: Bytes, w: World)
    requires c.Delay? && SameAnswers(env, o, env', o', w, ExecDelay(o, c, x, w).1)
    ensures ExecDelay(o', c, x, w) == ExecDelay(o, c, x, w)
  {
    hide Forward, Guard, Checkpoint;
    var we := ExecDelay(o, c, x, w).1;
    var (g, w1) := Guard(o, Some(c.id), w);
    GuardForward(o, Some(c.id), w);
    if g.None? && TaskResult(w1.snap, c.id).None? {
      var now := o.clock(w1.tick);
      var w2 := Mark(MoveTo(w1, AtDelay(c.id, now, now + Span(c.duration), SuccessorId(c))), c.id, x);
      ForwardStill(w1, w2);
      CheckpointForward(o, w2);
      ForwardVia(w1, w2, we);
      SameSplit(env, o, env', o', w, w1, we);
      assert SameAt(o, o', w1.tick);
      CheckpointLocal(env, o, env', o', w2);
    }
    GuardLocal(env, o, env', o', Some(c.id), w);
  }

  lemma SignalLocal(env: Env, o: Oracle, env': Env, o': Oracle, c: Cont, w: World)
    requires c.AwaitSignal? && SameAnswers(env, o, env', o', w, ExecSignal(o, c, w).1)
    ensures ExecSignal(o', c, w) == ExecSignal(o, c, w)
  {
    hide Forward, Guard, Checkpoint, RecordStep, ParkAtSignal;
    var we := ExecSignal(o, c, w).1;
    var (g, w1) := Guard(o, Some(c.id), w);
    GuardForward(o, Some(c.id), w);
    if g.None? && TaskResult(w1.snap, c.id).None? {
      var w2 := w1.(tick := w1.tick + 1);
      ForwardStill(w1, w2);
      var mail := o.mail(w1.tick, c.signalName);
      if mail.Delivered? {
        RecordStepForward(o, c, mail.payload, w2);
      } else if mail.NoMail? {
        ParkSignalForward(o, c, w2);
      } else {
        ForwardStill(w2, w2);
      }
      ForwardVia(w1, w2, we);
      SameSplit(env, o, env', o', w, w1, we);
      SameSplit(env, o, env', o', w1, w2, we);
      assert SameAt(o, o', w1.tick);
      if mail.Delivered? {
        RecordStepLocal(env, o, env', o', c, mail.payload, w2);
      } else if mail.NoMail? {
        ParkSignalLocal(env, o, env', o', c, w2);
      }
    }
    GuardLocal(env, o, env', o', Some(c.id), w);
  }

  lemma ParkSignalLocal(env: Env, o: Oracle, env': Env, o': Oracle, c: Cont, w: World)
    requires c.AwaitSignal? && SameAnswers(env, o, env', o', w, ParkAtSignal(o, c, w).1)
    ensures ParkAtSignal(o', c, w) == ParkAtSignal(o, c, w)
  {
    hide Checkpoint;
    var deadline := if c.timeout.Some? then Some(o.clock(w.tick) + Span(c.timeout.value)) else None;
    var w1 := MoveTo(w, AtSignal(c.id, c.signalName, deadline, SuccessorId(c)));
    CheckpointForward(o, w1);
    assert SameAt(o, o', w.tick);
    CheckpointLocal(env, o, env', o', w1);
  }

  lemma FinishForkLocal(
      env: Env, o: Oracle, env': Env, o': Oracle, c: Cont, results: seq<(string, Bytes)>, wake: Option<int>, w: World)
    requires c.Fork? && SameAnswers(env, o, env', o', w, FinishFork(env, o, c, results, wake, w).1)
    ensures FinishFork(env', o', c, results, wake, w) == FinishFork(env, o, c, results, wake, w)
  {
    hide Checkpoint;
    if wake.Some? {
      CheckpointLocal(env, o, env', o', MoveTo(w, AtFork(c.id, ToMap(results), wake.value)));
    }
  }

  lemma FinishBranchLocal(env: Env, o: Oracle, env': Env, o': Oracle, id: string, key: string, r: ExecResult, w: World)
    requires SameAnswers(env, o, env', o', w, FinishBranch(env, o, id, key, r, w).1)
    ensures FinishBranch(env', o', id, key, r, w) == FinishBranch(env, o, id, key, r, w)
  {
    hide Record;
    if r.Ok? && env.encodeEnvelope(key, r.value).Ok? {
      RecordLocal(env, o, env', o', id, env.encodeEnvelope(key, r.value).value, w);
    }
  }

  lemma {:induction false} ExecLocal(env: Env, o: Oracle, env': Env, o': Oracle, c: Cont, x: Bytes, w: World)
    requires LoopFree(c) && SameAnswers(env, o, env', o', w, Exec(env, o, c, x, w).1)
    ensures Exec(env', o', c, x, w) == Exec(env, o, c, x, w)
    decreases c, 2
  {
    hide Forward, ExecNode, SameAnswers;
    NodeForward(env, o, c, x, w);
    var (r, w1) := ExecNode(env, o, c, x, w);
    if r.Ok? && Next(c).Some? {
      var w2 := Exec(env, o, Next(c).value, r.value, w1).1;
      ExecForward(env, o, Next(c).value, r.value, w1);
      SameSplit(env, o, env', o', w, w1, w2);
      ExecLocal(env, o, env', o', Next(c).value, r.value, w1);
    }
    NodeLocal(env, o, env', o', c, x, w);
  }

  lemma {:induction false} NodeLocal(env: Env, o: Oracle, env': Env, o': Oracle, c: Cont, x: Bytes, w: World)
    requires LoopFreeNode(c) && SameAnswers(env, o, env', o', w, ExecNode(env, o, c, x, w).1)
    ensures ExecNode(env', o', c, x, w) == ExecNode(env, o, c, x, w)
    decreases c, 1
  {
    match c
    case Task(_, _, _, _) => TaskLocal(env, o, env', o', c, x, w);
    case Delay(_, _, _) => DelayLocal(env, o, env', o', c, x, w);
    case AwaitSignal(_, _, _, _) => SignalLocal(env, o, env', o', c, w);
    case Fork(_, _, _) => ForkLocal(env, o, env', o', c, x, w);
    case Branch(_, _, _, _, _) => BranchLocal(env, o, env', o', c, x, w);
    case ChildWorkflow(_, _, _) => ChildLocal(env, o, env', o', c, x, w);
  }

  lemma {:induction false} ForkLocal(env: Env, o: Oracle, env': Env, o': Oracle, c: Cont, x: Bytes, w: World)
    requires c.Fork? && LoopFreeNode(c) && SameAnswers(env, o, env', o', w, ExecNode(env, o, c, x, w).1)
    ensures ExecNode(env', o', c, x, w) == ExecNode(env, o, c, x, w)
    decreases c, 0
  {
    hide Forward, SameAnswers, Exec, ExecBranches, Guard, FinishFork, LoopFree;
    var we := ExecNode(env, o, c, x, w).1;
    GuardForward(o, None, w);
    var (g, w1) := Guard(o, None, w);
    if g.None? {
      BranchesForward(env, o, c.branches, x, [], None, w1);
      var (r, w2) := ExecBranches(env, o, c.branches, x, [], None, w1);
      if r.Ok? {
        FinishForkForward(env, o, c, r.value.0, r.value.1, w2);
        ForwardVia(w1, w2, we);
        SameSplit(env, o, env', o', w, w1, we);
        SameSplit(env, o, env', o', w1, w2, we);
        FinishForkLocal(env, o, env', o', c, r.value.0, r.value.1, w2);
      } else {
        SameSplit(env, o, env', o', w, w1, we);
      }
      BranchesLocal(env, o, env', o', c.branches, x, [], None, w1);
    }
    GuardLocal(env, o, env', o', None, w);
  }

  lemma {:induction false} BranchLocal(env: Env, o: Oracle, env': Env, o': Oracle, c: Cont, x: Bytes, w: World)
    requires c.Branch? && LoopFreeNode(c) && SameAnswers(env, o, env', o', w, ExecNode(env, o, c, x, w).1)
    ensures ExecNode(env', o', c, x, w) == ExecNode(env, o, c, x, w)
    decreases c, 0
  {
    hide Forward, Exec, Guard, CallTask, FinishBranch, LoopFree;
    var we := ExecNode(env, o, c, x, w).1;
    assert env'.decodeKey == env.decodeKey;
    hide SameAnswers;
    GuardForward(o, Some(c.id), w);
    var (g, w1) := Guard(o, Some(c.id), w);
    if g.None? && TaskResult(w1.snap, c.id).None? {
      CallForward(env, o, KeyFnId(c.id), x, true, w1);
      var (k, w2) := CallTask(env, o, KeyFnId(c.id), x, true, w1);
      if k.Ok? && Choose(env, c, k.value).Ok? {
        var (key, route) := Choose(env, c, k.value).value;
        ExecForward(env, o, route, x, w2);
        var (r, w3) := Exec(env, o, route, x, w2);
        FinishBranchForward(env, o, c.id, key, r, w3);
        ForwardVia(w1, w2, w3);
        ForwardVia(w1, w3, we);
        ForwardVia(w2, w3, we);
        SameSplit(env, o, env', o', w, w1, we);
        SameSplit(env, o, env', o', w1, w2, we);
        SameSplit(env, o, env', o', w2, w3, we);
        ExecLocal(env, o, env', o', route, x, w2);
        FinishBranchLocal(env, o, env', o', c.id, key, r, w3);
        assert Choose(env', c, k.value) == Choose(env, c, k.value);
      } else {
        SameSplit(env, o, env', o', w, w1, we);
        assert k.Ok? ==> Choose(env', c, k.value) == Choose(env, c, k.value);
      }
      CallLocal(env, o, env', o', KeyFnId(c.id), x, true, w1);
    }
    GuardLocal(env, o, env', o', Some(c.id), w);
  }

  lemma {:induction false} ChildLocal(env: Env, o: Oracle, env': Env, o': Oracle, c: Cont, x: Bytes, w: World)
    requires c.ChildWorkflow? && LoopFreeNode(c) && SameAnswers(env, o, env', o', w, ExecNode(env, o, c, x, w).1)
    ensures ExecNode(env', o', c, x, w) == ExecNode(env, o, c, x, w)
    decreases c, 0
  {
    hide Forward, SameAnswers, Exec, Guard, Record, LoopFree;
    var we := ExecNode(env, o, c, x, w).1;
    GuardForward(o, Some(c.id), w);
    var (g, w1) := Guard(o, Some(c.id), w);
    if g.None? && TaskResult(w1.snap, c.id).None? {
      ExecForward(env, o, c.child, x, w1);
      var (r, w2) := Exec(env, o, c.child, x, w1);
      if r.Ok? {
        RecordForward(o, c.id, r.value, w2);
        ForwardVia(w1, w2, we);
        SameSplit(env, o, env', o', w, w1, we);
        SameSplit(env, o, env', o', w1, w2, we);
        RecordLocal(env, o, env', o', c.id, r.value, w2);
      } else {
        SameSplit(env, o, env', o', w, w1, we);
      }
      ExecLocal(env, o, env', o', c.child, x, w1);
    }
    GuardLocal(env, o, env', o', Some(c.id), w);
  }

  lemma {:induction false} BranchesLocal(
      env: Env, o: Oracle, env': Env, o': Oracle, branches: seq<Cont>, x: Bytes,
      results: seq<(string, Bytes)>, wake: Option<int>, w: World)
    requires forall b :: b in branches ==> LoopFree(b)
    requires SameAnswers(env, o, env', o', w, ExecBranches(env, o, branches, x, results, wake, w).1)
    ensures ExecBranches(env', o', branches, x, results, wake, w) == ExecBranches(env, o, branches, x, results, wake, w)
    decreases branches, 3
  {
    hide Forward, SameAnswers, Exec, Record, LoopFree;
    if branches != [] {
      var b, rest := branches[0], branches[1..];
      var we := ExecBranches(env, o, branches, x, results, wake, w).1;
      if TaskResult(w.snap, b.id).Some? {
        BranchesLocal(env, o, env', o', rest, x, results + [(b.id, TaskResult(w.snap, b.id).value)], wake, w);
      } else {
        ExecForward(env, o, b, x, w);
        var (r, w1) := Exec(env, o, b, x, w);
        if r.Ok? {
          RecordForward(o, b.id, r.value, w1);
          var (s, w2) := Record(o, b.id, r.value, w1);
          if s.Ok? {
            BranchesForward(env, o, rest, x, results + [(b.id, r.value)], wake, w2);
            ForwardVia(w1, w2, we);
            SameSplit(env, o, env', o', w, w1, we);
            SameSplit(env, o, env', o', w1, w2, we);
            BranchesLocal(env, o, env', o', rest, x, results + [(b.id, r.value)], wake, w2);
          } else {
            SameSplit(env, o, env', o', w, w1, we);
          }
          RecordLocal(env, o, env', o', b.id, r.value, w1);
        } else if r.error.Waiting? {
          BranchesForward(env, o, rest, x, results, Later(wake, r.error.wakeAt), w1);
          SameSplit(env, o, env', o', w, w1, we);
          BranchesLocal(env, o, env', o', rest, x, results, Later(wake, r.error.wakeAt), w1);
        }
        ExecLocal(env, o, env', o', b, x, w);
      }
    }
  }

  // ----- dying right after a save -----

  /** The same surroundings, except that the process dies right after the write of the save at step `t`. */
  function CutAt(o: Oracle, t: nat): Oracle {
    o.(save := (n: nat) => if n == t then DiesAfter else o.save(n))
  }

  /** The walk stopped where it was, and finalization leaves the store alone. */
  predicate Halts(s: Stop) {
    s.Crash? || s.CancelledByUser? || s.PausedByUser?
  }

  /** Up to the cut nothing changes. */
  lemma CutSame(env: Env, o: Oracle, t: nat, w: World, w': World)
    requires w'.tick <= t
    ensures SameAnswers(env, o, env, CutAt(o, t), w, w')
  {
    forall n: nat | w.tick <= n < w'.tick ensures SameAt(o, CutAt(o, t), n) {
    }
  }

  /** Guards and calls do not depend on saves. */
  lemma CutFree(env: Env, o: Oracle, t: nat, scope: Option<string>, id: string, x: Bytes, keyFn: bool, w: World)
    ensures Guard(CutAt(o, t), scope, w) == Guard(o, scope, w)
    ensures CallTask(env, CutAt(o, t), id, x, keyFn, w) == CallTask(env, o, id, x, keyFn, w)
  {
  }

  /** A guard that writes stops the walk with what it wrote. */
  lemma GuardCut(o: Oracle, scope: Option<string>, w: World, i: nat)
    requires |w.trace| <= i < |Guard(o, scope, w).1.trace|
    ensures
      var (g, w') := Guard(o, scope, w);
      g.Some? && Halts(g.value) && w'.trace[i] == Saved(w'.saved)
  {
  }

  lemma CallCut(env: Env, o: Oracle, id: string, x: Bytes, keyFn: bool, w: World, i: nat)
    requires |w.trace| <= i < |CallTask(env, o, id, x, keyFn, w).1.trace|
    ensures CallTask(env, o, id, x, keyFn, w).1.trace[i].Called?
  {
  }

  /** A save that writes is the snapshot in memory, and the cut leaves it in the store. */
  lemma CheckpointCut(o: Oracle, w: World, i: nat)
    requires |w.trace| <= i < |Checkpoint(o, w).1.trace|
    ensures Checkpoint(o, w).1.trace[i] == Saved(w.snap)
    ensures Checkpoint(CutAt(o, w.tick), w).0 == Some(Crash) && Checkpoint(CutAt(o, w.tick), w).1.saved == w.snap
  {
  }

  /** The walk under the cut ends with the snapshot `e` in the store. */
  ghost predicate EndsWith(r: ExecResult, w: World, e: Event) {
    r.Err? && Halts(r.error) && e == Saved(w.saved)
  }

  lemma RecordCut(o: Oracle, id: string, v: Bytes, w: World, i: nat)
    requires |w.trace| <= i < |Record(o, id, v, w).1.trace|
    ensures
      var (r, w') := Record(CutAt(o, w.tick), id, v, w);
      EndsWith(r, w', Record(o, id, v, w).1.trace[i])
  {
    hide Checkpoint, CutAt;
    CheckpointCut(o, Mark(w, id, v), i);
  }

  lemma RecordStepCut(o: Oracle, c: Cont, v: Bytes, w: World, i: nat)
    requires |w.trace| <= i < |RecordStep(o, c, v, w).1.trace|
    ensures
      var (r, w') := RecordStep(CutAt(o, w.tick), c, v, w);
      EndsWith(r, w', RecordStep(o, c, v, w).1.trace[i])
  {
    hide Checkpoint, CutAt;
    CheckpointCut(o, Stepped(c, v, w), i);
  }

  lemma TaskCut(env: Env, o: Oracle, c: Cont, x: Bytes, w: World, i: nat) returns (t: nat)
    requires c.Task? && |w.trace| <= i < |ExecTask(env, o, c, x, w).1.trace|
    requires ExecTask(env, o, c, x, w).1.trace[i].Saved?
    ensures t >= w.tick
    ensures
      var (r, w') := ExecTask(env, CutAt(o, t), c, x, w);
      EndsWith(r, w', ExecTask(env, o, c, x, w).1.trace[i])
  {
    var (g, w1) := Guard(o, Some(c.id), w);
    GuardForward(o, Some(c.id), w);
    var (v, w2) := CallTask(env, o, c.id, x, false, w1);
    CallForward(env, o, c.id, x, false, w1);
    hide Guard, CallTask, RecordStep, CutAt;
    if i < |w1.trace| {
      t := w.tick;
      CutFree(env, o, t, Some(c.id), c.id, x, false, w);
      GuardCut(o, Some(c.id), w, i);
    } else {
      if v.Ok? {
        RecordStepForward(o, c, v.value, w2);
        GuardForward(o, None, RecordStep(o, c, v.value, w2).1);
      }
      assert w2.trace <= ExecTask(env, o, c, x, w).1.trace;
      if i < |w2.trace| {
        CallCut(env, o, c.id, x, false, w1, i);
      }
      var (r, w3) := RecordStep(o, c, v.value, w2);
      t := if i < |w3.trace| then w2.tick else w3.tick;
      CutFree(env, o, t, Some(c.id), c.id, x, false, w);
      CutFree(env, o, t, Some(c.id), c.id, x, false, w1);
      CutFree(env, o, t, None, c.id, x, false, w3);
      if i < |w3.trace| {
        RecordStepCut(o, c, v.value, w2, i);
      } else {
        CutSame(env, o, t, w2, w3);
        RecordStepLocal(env, o, env, CutAt(o, t), c, v.value, w2);
        GuardCut(o, None, w3, i);
      }
    }
  }

  lemma DelayCut(env: Env, o: Oracle, c: Cont, x: Bytes, w: World, i: nat) returns (t: nat)
    requires c.Delay? && |w.trace| <= i < |ExecDelay(o, c, x, w).1.trace|
    ensures t >= w.tick
    ensures var (r, w') := ExecDelay(CutAt(o, t), c, x, w); EndsWith(r, w', ExecDelay(o, c, x, w).1.trace[i])
  {
    var (g, w1) := Guard(o, Some(c.id), w);
    GuardForward(o, Some(c.id), w);
    t := w1.tick;
    CutFree(env, o, t, Some(c.id), c.id, x, false, w);
    assert CutAt(o, t).clock == o.clock;
    hide Guard, Checkpoint, CutAt;
    if i < |w1.trace| {
      GuardCut(o, Some(c.id), w, i);
    } else {
      var now := o.clock(w1.tick);
      var w2 := Mark(MoveTo(w1, AtDelay(c.id, now, now + Span(c.duration), SuccessorId(c))), c.id, x);
      CheckpointCut(o, w2, i);
    }
  }

  lemma SignalCut(env: Env, o: Oracle, c: Cont, w: World, i: nat) returns (t: nat)
    requires c.AwaitSignal? && |w.trace| <= i < |ExecSignal(o, c, w).1.trace|
    ensures t >= w.tick
    ensures var (r, w') := ExecSignal(CutAt(o, t), c, w); EndsWith(r, w', ExecSignal(o, c, w).1.trace[i])
  {
    var (g, w1) := Guard(o, Some(c.id), w);
    GuardForward(o, Some(c.id), w);
    var w2 := w1.(tick := w1.tick + 1);
    t := w2.tick;
    CutFree(env, o, t, Some(c.id), c.id, [], false, w);
    assert CutAt(o, t).clock == o.clock && CutAt(o, t).mail == o.mail;
    hide Guard, Checkpoint, CutAt, RecordStep;
    if i < |w1.trace| {
      GuardCut(o, Some(c.id), w, i);
    } else {
      var mail := o.mail(w1.tick, c.signalName);
      if mail.Delivered? {
        RecordStepCut(o, c, mail.payload, w2, i);
      } else {
        var deadline := if c.timeout.Some? then Some(o.clock(w2.tick) + Span(c.timeout.value)) else None;
        CheckpointCut(o, MoveTo(w2, AtSignal(c.id, c.signalName, deadline, SuccessorId(c))), i);
      }
    }
  }

  /** Dying right after any save of a walk leaves exactly that save in the store. */
  lemma {:induction false} ExecCut(env: Env, o: Oracle, c: Cont, x: Bytes, w: World, i: nat) returns (t: nat)
    requires LoopFree(c) && |w.trace| <= i < |Exec(env, o, c, x, w).1.trace|
    requires Exec(env, o, c, x, w).1.trace[i].Saved?
    ensures t >= w.tick
    ensures var (r, w') := Exec(env, CutAt(o, t), c, x, w); EndsWith(r, w', Exec(env, o, c, x, w).1.trace[i])
    decreases c, 2
  {
    NodeForward(env, o, c, x, w);
    hide ExecNode, CutAt;
    var (r, w1) := ExecNode(env, o, c, x, w);
    if r.Ok? && Next(c).Some? {
      var n := Next(c).value;
      ExecForward(env, o, n, r.value, w1);
      if i < |w1.trace| {
        t := NodeCut(env, o, c, x, w, i);
      } else {
        t := ExecCut(env, o, n, r.value, w1, i);
        CutSame(env, o, t, w, w1);
        NodeLocal(env, o, env, CutAt(o, t), c, x, w);
      }
    } else {
      t := NodeCut(env, o, c, x, w, i);
    }
  }

  lemma {:induction false} NodeCut(env: Env, o: Oracle, c: Cont, x: Bytes, w: World, i: nat) returns (t: nat)
    requires LoopFreeNode(c) && |w.trace| <= i < |ExecNode(env, o, c, x, w).1.trace|
    requires ExecNode(env, o, c, x, w).1.trace[i].Saved?
    ensures t >= w.tick
    ensures var (r, w') := ExecNode(env, CutAt(o, t), c, x, w); EndsWith(r, w', ExecNode(env, o, c, x, w).1.trace[i])
    decreases c, 1
  {
    match c {
      case Task(_, _, _, _) => t := TaskCut(env, o, c, x, w, i);
      case Delay(_, _, _) => t := DelayCut(env, o, c, x, w, i);
      case AwaitSignal(_, _, _, _) => t := SignalCut(env, o, c, w, i);
      case Fork(_, _, _) => t := ForkCut(env, o, c, x, w, i);
      case Branch(_, _, _, _, _) => t := BranchCut(env, o, c, x, w, i);
      case ChildWorkflow(_, _, _) => t := ChildCut(env, o, c, x, w, i);
    }
  }

  lemma {:induction false} ChildCut(env: Env, o: Oracle, c: Cont, x: Bytes, w: World, i: nat) returns (t: nat)
    requires c.ChildWorkflow? && LoopFreeNode(c) && |w.trace| <= i < |ExecNode(env, o, c, x, w).1.trace|
    requires ExecNode(env, o, c, x, w).1.trace[i].Saved?
    ensures t >= w.tick
    ensures var (r, w') := ExecNode(env, CutAt(o, t), c, x, w); EndsWith(r, w', ExecNode(env, o, c, x, w).1.trace[i])
    decreases c, 0
  {
    GuardForward(o, Some(c.id), w);
    var (g, w1) := Guard(o, Some(c.id), w);
    hide Guard, Exec, Record, CutAt, LoopFree;
    if i < |w1.trace| {
      t := w.tick;
      GuardCut(o, Some(c.id), w, i);
    } else {
      ExecForward(env, o, c.child, x, w1);
      var (r, w2) := Exec(env, o, c.child, x, w1);
      if i < |w2.trace| {
        if r.Ok? {
          RecordForward(o, c.id, r.value, w2);
        }
        t := ExecCut(env, o, c.child, x, w1, i);
      } else {
        t := w2.tick;
        CutSame(env, o, t, w1, w2);
        ExecLocal(env, o, env, CutAt(o, t), c.child, x, w1);
        RecordCut(o, c.id, r.value, w2, i);
      }
    }
    CutFree(env, o, t, Some(c.id), c.id, x, false, w);
  }

  lemma {:induction false} BranchCut(env: Env, o: Oracle, c: Cont, x: Bytes, w: World, i: nat) returns (t: nat)
    requires c.Branch? && LoopFreeNode(c) && |w.trace| <= i < |ExecNode(env, o, c, x, w).1.trace|
    requires ExecNode(env, o, c, x, w).1.trace[i].Saved?
    ensures t >= w.tick
    ensures var (r, w') := ExecNode(env, CutAt(o, t), c, x, w); EndsWith(r, w', ExecNode(env, o, c, x, w).1.trace[i])
    decreases c, 0
  {
    GuardForward(o, Some(c.id), w);
    var (g, w1) := Guard(o, Some(c.id), w);
    hide Guard, Exec, Record, CallTask, CutAt, LoopFree;
    if i < |w1.trace| {
      t := w.tick;
      GuardCut(o, Some(c.id), w, i);
    } else {
      CallForward(env, o, KeyFnId(c.id), x, true, w1);
      var (k, w2) := CallTask(env, o, KeyFnId(c.id), x, true, w1);
      if i < |w2.trace| {
        CallCut(env, o, KeyFnId(c.id), x, true, w1, i);
      }
      var (key, route) := Choose(env, c, k.value).value;
      ExecForward(env, o, route, x, w2);
      var (r, w3) := Exec(env, o, route, x, w2);
      if i < |w3.trace| {
        FinishBranchForward(env, o, c.id, key, r, w3);
        t := ExecCut(env, o, route, x, w2, i);
      } else {
        t := w3.tick;
        CutSame(env, o, t, w2, w3);
        ExecLocal(env, o, env, CutAt(o, t), route, x, w2);
        RecordCut(o, c.id, env.encodeEnvelope(key, r.value).value, w3, i);
      }
      CutFree(env, o, t, Some(c.id), KeyFnId(c.id), x, true, w1);
    }
    CutFree(env, o, t, Some(c.id), c.id, x, false, w);
  }

  lemma {:induction false} ForkCut(env: Env, o: Oracle, c: Cont, x: Bytes, w: World, i: nat) returns (t: nat)
    requires c.Fork? && LoopFreeNode(c) && |w.trace| <= i < |ExecNode(env, o, c, x, w).1.trace|
    requires ExecNode(env, o, c, x, w).1.trace[i].Saved?
    ensures t >= w.tick
    ensures var (r, w') := ExecNode(env, CutAt(o, t), c, x, w); EndsWith(r, w', ExecNode(env, o, c, x, w).1.trace[i])
    decreases c, 0
  {
    GuardForward(o, None, w);
    var (g, w1) := Guard(o, None, w);
    hide Guard, Exec, ExecBranches, Checkpoint, CutAt, LoopFree;
    if i < |w1.trace| {
      t := w.tick;
      GuardCut(o, None, w, i);
    } else {
      BranchesForward(env, o, c.branches, x, [], None, w1);
      var (r, w2) := ExecBranches(env, o, c.branches, x, [], None, w1);
      if i < |w2.trace| {
        if r.Ok? {
          FinishForkForward(env, o, c, r.value.0, r.value.1, w2);
        }
        t := BranchesCut(env, o, c.branches, x, [], None, w1, i);
      } else {
        t := w2.tick;
        CutSame(env, o, t, w1, w2);
        BranchesLocal(env, o, env, CutAt(o, t), c.branches, x, [], None, w1);
        CheckpointCut(o, MoveTo(w2, AtFork(c.id, ToMap(r.value.0), r.value.1.value)), i);
      }
    }
    CutFree(env, o, t, None, c.id, x, false, w);
  }

  lemma {:induction false} BranchesCut(
      env: Env, o: Oracle, branches: seq<Cont>, x: Bytes, results: seq<(string, Bytes)>, wake: Option<int>, w: World,
      i: nat) returns (t: nat)
    requires forall b :: b in branches ==> LoopFree(b)
    requires |w.trace| <= i < |ExecBranches(env, o, branches, x, results, wake, w).1.trace|
    requires ExecBranches(env, o, branches, x, results, wake, w).1.trace[i].Saved?
    ensures t >= w.tick
    ensures
      var (r, w') := ExecBranches(env, CutAt(o, t), branches, x, results, wake, w);
      r.Err? && Halts(r.error) && ExecBranches(env, o, branches, x, results, wake, w).1.trace[i] == Saved(w'.saved)
    decreases branches, 3
  {
    hide Exec, Record, CutAt, LoopFree;
    var b, rest := branches[0], branches[1..];
    if TaskResult(w.snap, b.id).Some? {
      t := BranchesCut(env, o, rest, x, results + [(b.id, TaskResult(w.snap, b.id).value)], wake, w, i);
    } else {
      ExecForward(env, o, b, x, w);
      var (r, w1) := Exec(env, o, b, x, w);
      if i < |w1.trace| {
        BranchTail(env, o, branches, x, results, wake, w);
        t := ExecCut(env, o, b, x, w, i);
      } else if r.Ok? {
        RecordForward(o, b.id, r.value, w1);
        var (s, w2) := Record(o, b.id, r.value, w1);
        if i < |w2.trace| {
          t := w1.tick;
          if s.Ok? {
            BranchesForward(env, o, rest, x, results + [(b.id, r.value)], wake, w2);
          }
          RecordCut(o, b.id, r.value, w1, i);
        } else {
          t := BranchesCut(env, o, rest, x, results + [(b.id, r.value)], wake, w2, i);
          CutSame(env, o, t, w1, w2);
          RecordLocal(env, o, env, CutAt(o, t), b.id, r.value, w1);
        }
        CutSame(env, o, t, w, w1);
        ExecLocal(env, o, env, CutAt(o, t), b, x, w);
      } else {
        t := BranchesCut(env, o, rest, x, results, Later(wake, r.error.wakeAt), w1, i);
        CutSame(env, o, t, w, w1);
        ExecLocal(env, o, env, CutAt(o, t), b, x, w);
      }
    }
  }

  /** What follows the first branch only adds to the history. */
  lemma BranchTail(
      env: Env, o: Oracle, branches: seq<Cont>, x: Bytes, results: seq<(string, Bytes)>, wake: Option<int>, w: World)
    requires branches != [] && (forall b :: b in branches ==> LoopFree(b)) && TaskResult(w.snap, branches[0].id).None?
    ensures Exec(env, o, branches[0], x, w).1.trace <= ExecBranches(env, o, branches, x, results, wake, w).1.trace
  {
    hide Exec, Record, LoopFree;
    var b, rest := branches[0], branches[1..];
    var (r, w1) := Exec(env, o, b, x, w);
    if r.Ok? {
      RecordForward(o, b.id, r.value, w1);
      var (s, w2) := Record(o, b.id, r.value, w1);
      if s.Ok? {
        BranchesForward(env, o, rest, x, results + [(b.id, r.value)], wake, w2);
      }
    } else if r.error.Waiting? {
      BranchesForward(env, o, rest, x, results, Later(wake, r.error.wakeAt), w1);
    }
  }
}
