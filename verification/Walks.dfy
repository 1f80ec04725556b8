/**
 What every walk, attempt and history keeps. A law speaks about a world and about why the walk has stopped
 (`None` while it goes on); if every single operation keeps it, so does everything the executor does.
 */
module Walks {
  import opened Prelude
  import opened Continuation
  import opened Semantics
  import opened Snapshots
  import opened Durable
  import opened Lifecycle
  import opened Parts

  /** `alarm` is the latest wake time of the branches that wait in the forks around the current node. */
  type Law = (int, Option<Stop>, World) -> bool

  function StopOf(r: ExecResult): Option<Stop> {
    if r.Ok? then None else Some(r.error)
  }

  function Max(a: int, b: int): int {
    if a < b then b else a
  }

  predicate Fault(s: Stop) {
    s.Crash? || s.BackendFailure? || s.Raised?
  }

  // ----- what a law has to survive -----

  /** Failing, and stopping somewhere inside a fork, change nothing. */
  ghost predicate KeptStopping(law: Law) {
    && (forall a, s, w :: law(a, None, w) && Fault(s) ==> law(a, Some(s), w))
    && (forall a, b, s: Stop, w :: law(a, Some(s), w) && !s.Waiting? ==> law(b, Some(s), w))
  }

  ghost predicate KeptByGuards(o: Oracle, law: Law) {
    forall a, scope, w :: law(a, None, w) ==> law(a, Guard(o, scope, w).0, Guard(o, scope, w).1)
  }

  /** Tasks are called only if they have no result yet. */
  ghost predicate KeptByCalls(env: Env, o: Oracle, law: Law) {
    forall a, id, x, keyFn, w :: law(a, None, w) && (keyFn || TaskResult(w.snap, id).None?) ==>
      law(a, None, CallTask(env, o, id, x, keyFn, w).1)
  }

  /** Time passes while the mail is read. */
  ghost predicate KeptByTime(law: Law) {
    forall a, w, t :: law(a, None, w) && t == w.tick + 1 ==> law(a, None, w.(tick := t))
  }

  ghost predicate KeptByRecords(o: Oracle, root: Cont, law: Law) {
    && (forall a, id, v, w :: law(a, None, w) ==>
          law(a, StopOf(Record(o, id, v, w).0), Record(o, id, v, w).1))
    && (forall a, c, v, w :: law(a, None, w) && Inside(c, root) ==>
          law(a, StopOf(RecordStep(o, c, v, w).0), RecordStep(o, c, v, w).1))
  }

  ghost predicate KeptByParks(env: Env, o: Oracle, root: Cont, law: Law) {
    && (forall a, c: Cont, x, w :: law(a, None, w) && Inside(c, root) && c.Delay? ==>
          law(a, StopOf(ParkAtDelay(o, c, x, w).0), ParkAtDelay(o, c, x, w).1))
    && (forall a, c: Cont, w :: law(a, None, w) && Inside(c, root) && c.AwaitSignal? ==>
          law(a, StopOf(ParkAtSignal(o, c, w).0), ParkAtSignal(o, c, w).1))
    && (forall a, c: Cont, results, wake, w :: law(Max(a, wake), None, w) && Inside(c, root) && c.Fork? ==>
          var (r, w') := FinishFork(env, o, c, results, Some(wake), w); law(a, StopOf(r), w'))
  }

  ghost predicate KeptByLoops(o: Oracle, root: Cont, law: Law) {
    && (forall a, c: Cont, w, ids :: law(a, None, w) && Inside(c, root) && c.Loop? ==>
          law(a, None, w.(snap := RemoveTaskResults(w.snap, ids))))
    && (forall a, c: Cont, w, id :: law(a, None, w) && Inside(c, root) && c.Loop? ==>
          law(a, None, w.(snap := ClearLoopIteration(w.snap, id))))
    && (forall a, c: Cont, i: nat, w ::
          law(a, None, w) && Inside(c, root) && c.Loop? && 1 <= i <= c.maxIterations ==>
          law(a, NextIteration(o, c, i, w).0, NextIteration(o, c, i, w).1))
  }

  /** A waiting branch lets the other branches of its fork go on. */
  ghost predicate KeptInForks(law: Law) {
    forall a, t, w :: law(a, Some(Waiting(t)), w) ==> law(Max(a, t), None, w)
  }

  /** A tree and its surroundings, and a law to be kept; if `calm`, forks hold no delays. */
  datatype Setting = Setting(env: Env, o: Oracle, root: Cont, law: Law, calm: bool)

  /** The law is kept by every operation of a walk. */
  ghost predicate Kept(k: Setting) {
    && KeptStopping(k.law) && KeptByGuards(k.o, k.law) && KeptByCalls(k.env, k.o, k.law) && KeptByTime(k.law)
    && KeptByRecords(k.o, k.root, k.law) && KeptByParks(k.env, k.o, k.root, k.law)
    && KeptByLoops(k.o, k.root, k.law) && (!k.calm ==> KeptInForks(k.law))
  }

  // ----- forks without delays -----

  /** No delay is reached from inside a fork branch (a waiting branch lets the others go on). */
  predicate NoDelayInFork(c: Cont, inFork: bool)
    decreases c, 1
  {
    NodeNoDelayInFork(c, inFork) && (Next(c).Some? ==> NoDelayInFork(Next(c).value, inFork))
  }

  predicate NodeNoDelayInFork(c: Cont, inFork: bool)
    decreases c, 0
  {
    match c
    case Delay(_, _, _) => !inFork
    case Fork(_, branches, _) => forall b :: b in branches ==> NoDelayInFork(b, true)
    case Branch(_, _, routes, default, _) =>
      && (forall k :: k in routes ==> NoDelayInFork(routes[k], inFork))
      && (default.Some? ==> NoDelayInFork(default.value, inFork))
    case Loop(_, body, _, _, _) => NoDelayInFork(body, inFork)
    case ChildWorkflow(_, child, _) => NoDelayInFork(child, inFork)
    case _ => true
  }

  /** How a walk may end: with the law kept, and not waiting inside a fork without delays. */
  ghost predicate Ends(k: Setting, a: int, inFork: bool, r: ExecResult, w: World) {
    k.law(a, StopOf(r), w) && !(k.calm && inFork && r.Err? && r.error.Waiting?)
  }

  /** The part may be walked through. */
  ghost predicate Fits(k: Setting, c: Cont, inFork: bool) {
    Inside(c, k.root) && (k.calm ==> NoDelayInFork(c, inFork))
  }

  ghost predicate FitsNode(k: Setting, c: Cont, inFork: bool) {
    Inside(c, k.root) && (k.calm ==> NodeNoDelayInFork(c, inFork))
  }

  lemma FitsNext(k: Setting, c: Cont, inFork: bool)
    requires Fits(k, c, inFork)
    ensures FitsNode(k, c, inFork) && (Next(c).Some? ==> Fits(k, Next(c).value, inFork))
  {
    if Next(c).Some? {
      InsideNext(c, k.root);
    }
  }

  /** What is nested in a node may be walked through too. */
  lemma FitsInner(k: Setting, c: Cont, inner: Cont, inFork: bool)
    requires FitsNode(k, c, inFork)
    requires match c
      case Branch(_, _, routes, default, _) => inner in routes.Values || default == Some(inner)
      case Loop(_, body, _, _, _) => inner == body
      case ChildWorkflow(_, child, _) => inner == child
      case Fork(_, branches, _) => inFork && inner in branches
      case _ => false
    ensures Fits(k, inner, inFork)
  {
    assert Inside(inner, inner);
    InsideBeneath(inner, c, k.root);
  }

  // ----- single operations -----

  lemma Faulted(k: Setting, a: int, s: Stop, w: World)
    requires Kept(k) && k.law(a, None, w) && Fault(s)
    ensures k.law(a, Some(s), w)
  {
    assert KeptStopping(k.law);
  }

  lemma Unwound(k: Setting, a: int, b: int, s: Stop, w: World)
    requires Kept(k) && k.law(a, Some(s), w) && !s.Waiting?
    ensures k.law(b, Some(s), w)
  {
    assert KeptStopping(k.law);
  }

  lemma GuardEnds(k: Setting, a: int, scope: Option<string>, w: World)
    requires Kept(k) && k.law(a, None, w)
    ensures var (g, w') := Guard(k.o, scope, w); k.law(a, g, w') && !(g.Some? && g.value.Waiting?)
  {
    assert KeptByGuards(k.o, k.law);
  }

  lemma CallEnds(k: Setting, a: int, id: string, x: Bytes, keyFn: bool, w: World)
    requires Kept(k) && k.law(a, None, w) && (keyFn || TaskResult(w.snap, id).None?)
    ensures
      var (r, w') := CallTask(k.env, k.o, id, x, keyFn, w);
      Ends(k, a, true, r, w') && k.law(a, None, w')
  {
    assert KeptByCalls(k.env, k.o, k.law);
    var (r, w') := CallTask(k.env, k.o, id, x, keyFn, w);
    assert k.law(a, None, w');
    if r.Err? {
      Faulted(k, a, r.error, w');
    }
  }

  lemma RecordEnds(k: Setting, a: int, id: string, v: Bytes, w: World)
    requires Kept(k) && k.law(a, None, w)
    ensures var (r, w') := Record(k.o, id, v, w); Ends(k, a, true, r, w')
  {
    assert KeptByRecords(k.o, k.root, k.law);
  }

  lemma RecordStepEnds(k: Setting, a: int, c: Cont, v: Bytes, w: World)
    requires Kept(k) && k.law(a, None, w) && Inside(c, k.root)
    ensures var (r, w') := RecordStep(k.o, c, v, w); Ends(k, a, true, r, w')
  {
    assert KeptByRecords(k.o, k.root, k.law);
  }

  lemma TaskEnds(k: Setting, a: int, c: Cont, x: Bytes, w: World)
    requires Kept(k) && k.law(a, None, w) && Inside(c, k.root) && c.Task?
    ensures var (r, w') := ExecTask(k.env, k.o, c, x, w); Ends(k, a, true, r, w')
  {
    hide Kept, Guard, CallTask, RecordStep;
    GuardEnds(k, a, Some(c.id), w);
    var (g, w1) := Guard(k.o, Some(c.id), w);
    if g.None? && TaskResult(w1.snap, c.id).None? {
      CallEnds(k, a, c.id, x, false, w1);
      var (v, w2) := CallTask(k.env, k.o, c.id, x, false, w1);
      if v.Ok? {
        RecordStepEnds(k, a, c, v.value, w2);
        var (r, w3) := RecordStep(k.o, c, v.value, w2);
        if r.Ok? {
          GuardEnds(k, a, None, w3);
          var (g', w4) := Guard(k.o, None, w3);
          assert ExecTask(k.env, k.o, c, x, w) == (if g'.Some? then Err(g'.value) else r, w4);
        }
      }
    }
  }

  lemma DelayEnds(k: Setting, a: int, c: Cont, x: Bytes, inFork: bool, w: World)
    requires Kept(k) && k.law(a, None, w) && FitsNode(k, c, inFork) && c.Delay?
    ensures var (r, w') := ExecDelay(k.o, c, x, w); Ends(k, a, inFork, r, w')
  {
    assert KeptByParks(k.env, k.o, k.root, k.law);
    hide Kept, Guard, ParkAtDelay;
    GuardEnds(k, a, Some(c.id), w);
  }

  lemma SignalEnds(k: Setting, a: int, c: Cont, w: World)
    requires Kept(k) && k.law(a, None, w) && Inside(c, k.root) && c.AwaitSignal?
    ensures var (r, w') := ExecSignal(k.o, c, w); Ends(k, a, true, r, w')
  {
    assert KeptByParks(k.env, k.o, k.root, k.law) && KeptByTime(k.law);
    hide Kept, Guard, RecordStep, Checkpoint;
    GuardEnds(k, a, Some(c.id), w);
    var (g, w1) := Guard(k.o, Some(c.id), w);
    if g.None? && TaskResult(w1.snap, c.id).None? {
      var w2 := w1.(tick := w1.tick + 1);
      assert k.law(a, None, w2);
      match k.o.mail(w1.tick, c.signalName)
      case Delivered(payload) => RecordStepEnds(k, a, c, payload, w2);
      case NoMail => SignalParkEnds(k, a, c, w2);
      case MailFails => Faulted(k, a, BackendFailure, w2);
      case MailCrashes => Faulted(k, a, Crash, w2);
    }
  }

  lemma SignalParkEnds(k: Setting, a: int, c: Cont, w: World)
    requires KeptByParks(k.env, k.o, k.root, k.law) && k.law(a, None, w) && Inside(c, k.root) && c.AwaitSignal?
    ensures var (r, w') := ParkAtSignal(k.o, c, w); Ends(k, a, true, r, w')
  {
  }

  lemma WrapEnds(k: Setting, a: int, id: string, key: string, r: ExecResult, inFork: bool, w: World)
    requires Kept(k) && Ends(k, a, inFork, r, w)
    ensures var (r', w') := FinishBranch(k.env, k.o, id, key, r, w); Ends(k, a, inFork, r', w')
  {
    hide Kept, Record;
    if r.Ok? {
      match k.env.encodeEnvelope(key, r.value)
      case Ok(v) => RecordEnds(k, a, id, v, w);
      case Err(e) => Faulted(k, a, Raised(e), w);
    }
  }

  // ----- walks -----

  lemma {:induction false} ExecEnds(k: Setting, a: int, c: Cont, x: Bytes, inFork: bool, w: World)
    requires Kept(k) && k.law(a, None, w) && Fits(k, c, inFork)
    ensures var (r, w') := Exec(k.env, k.o, c, x, w); Ends(k, a, inFork, r, w')
    decreases c, 2
  {
    hide Kept, Fits, FitsNode, ExecNode;
    FitsNext(k, c, inFork);
    NodeEnds(k, a, c, x, inFork, w);
    var (r, w1) := ExecNode(k.env, k.o, c, x, w);
    if r.Ok? && Next(c).Some? {
      ExecEnds(k, a, Next(c).value, r.value, inFork, w1);
    }
  }

  lemma {:induction false} NodeEnds(k: Setting, a: int, c: Cont, x: Bytes, inFork: bool, w: World)
    requires Kept(k) && k.law(a, None, w) && FitsNode(k, c, inFork)
    ensures var (r, w') := ExecNode(k.env, k.o, c, x, w); Ends(k, a, inFork, r, w')
    decreases c, 1
  {
    match c
    case Task(_, _, _, _) => TaskEnds(k, a, c, x, w);
    case Delay(_, _, _) => DelayEnds(k, a, c, x, inFork, w);
    case AwaitSignal(_, _, _, _) => SignalEnds(k, a, c, w);
    case Fork(_, _, _) => ForkEnds(k, a, c, x, inFork, w);
    case Branch(_, _, _, _, _) => BranchEnds(k, a, c, x, inFork, w);
    case Loop(id, _, _, _, _) =>
      GuardEnds(k, a, Some(id), w);
      var (g, w1) := Guard(k.o, Some(id), w);
      if g.None? {
        LoopEnds(k, a, c, LoopIteration(w1.snap, id), x, inFork, w1);
      }
    case ChildWorkflow(_, _, _) => ChildEnds(k, a, c, x, inFork, w);
  }

  lemma {:induction false} ChildEnds(k: Setting, a: int, c: Cont, x: Bytes, inFork: bool, w: World)
    requires Kept(k) && k.law(a, None, w) && FitsNode(k, c, inFork) && c.ChildWorkflow?
    ensures var (r, w') := ExecNode(k.env, k.o, c, x, w); Ends(k, a, inFork, r, w')
    decreases c, 0
  {
    hide Kept, Fits, FitsNode, Guard, Exec, Record;
    GuardEnds(k, a, Some(c.id), w);
    var (g, w1) := Guard(k.o, Some(c.id), w);
    if g.None? && TaskResult(w1.snap, c.id).None? {
      FitsInner(k, c, c.child, inFork);
      ExecEnds(k, a, c.child, x, inFork, w1);
      var (r, w2) := Exec(k.env, k.o, c.child, x, w1);
      if r.Ok? {
        RecordEnds(k, a, c.id, r.value, w2);
      }
    }
  }

  lemma {:induction false} BranchEnds(k: Setting, a: int, c: Cont, x: Bytes, inFork: bool, w: World)
    requires Kept(k) && k.law(a, None, w) && FitsNode(k, c, inFork) && c.Branch?
    ensures var (r, w') := ExecNode(k.env, k.o, c, x, w); Ends(k, a, inFork, r, w')
    decreases c, 0
  {
    hide Kept, Fits, FitsNode, Guard, Exec, CallTask, FinishBranch;
    GuardEnds(k, a, Some(c.id), w);
    var (g, w1) := Guard(k.o, Some(c.id), w);
    if g.None? && TaskResult(w1.snap, c.id).None? {
      CallEnds(k, a, KeyFnId(c.id), x, true, w1);
      var (v, w2) := CallTask(k.env, k.o, KeyFnId(c.id), x, true, w1);
      if v.Ok? {
        var chosen := Choose(k.env, c, v.value);
        if chosen.Err? {
          Faulted(k, a, Raised(chosen.error), w2);
        } else {
          FitsInner(k, c, chosen.value.1, inFork);
          ExecEnds(k, a, chosen.value.1, x, inFork, w2);
          var (r, w3) := Exec(k.env, k.o, chosen.value.1, x, w2);
          WrapEnds(k, a, c.id, chosen.value.0, r, inFork, w3);
        }
      }
    }
  }

  lemma {:induction false} ForkEnds(k: Setting, a: int, c: Cont, x: Bytes, inFork: bool, w: World)
    requires Kept(k) && k.law(a, None, w) && FitsNode(k, c, inFork) && c.Fork?
    ensures var (r, w') := ExecNode(k.env, k.o, c, x, w); Ends(k, a, inFork, r, w')
    decreases c, 0
  {
    GuardEnds(k, a, None, w);
    var (g, w1) := Guard(k.o, None, w);
    if g.None? {
      assert FitsNode(k, c, true);
      BranchesEnd(k, a, c, c.branches, x, [], None, w1);
      var (r, w2) := ExecBranches(k.env, k.o, c.branches, x, [], None, w1);
      if r.Err? {
        Unwound(k, a, a, r.error, w2);
      } else {
        FinishEnds(k, a, c, r.value.0, r.value.1, w2);
      }
    }
  }

  lemma FinishEnds(k: Setting, a: int, c: Cont, results: seq<(string, Bytes)>, wake: Option<int>, w: World)
    requires Kept(k) && k.law(Latest(a, wake), None, w) && Inside(c, k.root) && c.Fork?
    ensures
      var (r, w') := FinishFork(k.env, k.o, c, results, wake, w);
      k.law(a, StopOf(r), w') && (wake.None? ==> !(r.Err? && r.error.Waiting?))
  {
    assert KeptByParks(k.env, k.o, k.root, k.law);
    hide Kept;
    if wake.None? && k.env.encodeNamed(results).Err? {
      Faulted(k, a, Raised(k.env.encodeNamed(results).error), w);
    }
  }

  /** The alarm with a fork's own waiting branches. */
  function Latest(a: int, wake: Option<int>): int {
    if wake.Some? then Max(a, wake.value) else a
  }

  lemma {:induction false} BranchesEnd(
      k: Setting, a: int, c: Cont, branches: seq<Cont>, x: Bytes, results: seq<(string, Bytes)>, wake: Option<int>,
      w: World)
    requires Kept(k) && FitsNode(k, c, true) && c.Fork? && (forall b :: b in branches ==> b in c.branches)
    requires k.law(Latest(a, wake), None, w)
    ensures
      var (r, w') := ExecBranches(k.env, k.o, branches, x, results, wake, w);
      && (r.Ok? ==> k.law(Latest(a, r.value.1), None, w') && (k.calm && wake.None? ==> r.value.1.None?))
      && (r.Err? ==> k.law(a, Some(r.error), w') && !r.error.Waiting?)
    decreases branches, 3
  {
    hide Kept, Fits, FitsNode, Exec, Record;
    if branches != [] {
      var b, rest := branches[0], branches[1..];
      if TaskResult(w.snap, b.id).Some? {
        BranchesEnd(k, a, c, rest, x, results + [(b.id, TaskResult(w.snap, b.id).value)], wake, w);
      } else {
        var a' := Latest(a, wake);
        FitsInner(k, c, b, true);
        ExecEnds(k, a', b, x, true, w);
        var (r, w1) := Exec(k.env, k.o, b, x, w);
        if r.Ok? {
          RecordEnds(k, a', b.id, r.value, w1);
          var (s, w2) := Record(k.o, b.id, r.value, w1);
          if s.Ok? {
            BranchesEnd(k, a, c, rest, x, results + [(b.id, r.value)], wake, w2);
          } else {
            RecordFaults(k.o, b.id, r.value, w1);
            Unwound(k, a', a, s.error, w2);
          }
        } else if r.error.Waiting? {
          var t := r.error.wakeAt;
          Overtaken(k, a', t, w1);
          BranchesEnd(k, a, c, rest, x, results, Later(wake, t), w1);
        } else {
          Unwound(k, a', a, r.error, w1);
        }
      }
    }
  }

  lemma RecordFaults(o: Oracle, id: string, v: Bytes, w: World)
    ensures var (r, w') := Record(o, id, v, w); r.Err? ==> !r.error.Waiting?
  {
  }

  lemma Overtaken(k: Setting, a: int, t: int, w: World)
    requires Kept(k) && !k.calm && k.law(a, Some(Waiting(t)), w)
    ensures k.law(Max(a, t), None, w)
  {
    assert KeptInForks(k.law);
  }

  lemma {:induction false} LoopEnds(k: Setting, a: int, c: Cont, i: nat, x: Bytes, inFork: bool, w: World)
    requires Kept(k) && k.law(a, None, w) && FitsNode(k, c, inFork) && c.Loop?
    ensures var (r, w') := ExecLoop(k.env, k.o, c, i, x, w); Ends(k, a, inFork, r, w')
    decreases c, 0, c.maxIterations - i
  {
    hide Kept, Fits, Exec, Record, NextIteration, Ids, Inside;
    if i >= c.maxIterations {
      LoopRecordEnds(k, a, c, x, w);
      Faulted(k, a, Raised(MaxIterationsExceeded(c.id, c.maxIterations)), w);
    } else {
      FitsInner(k, c, c.body, inFork);
      ExecEnds(k, a, c.body, x, inFork, w);
      var (r, w1) := Exec(k.env, k.o, c.body, x, w);
      if r.Ok? {
        var w2 := w1.(snap := RemoveTaskResults(w1.snap, Ids(c.body)));
        Dropped(k, a, c, Ids(c.body), w1);
        var d := k.env.decodeLoop(r.value);
        if d.Err? {
          Faulted(k, a, Raised(d.error), w2);
        } else if d.value.0 == "done" {
          LoopRecordEnds(k, a, c, d.value.1, w2);
        } else if d.value.0 == "again" {
          IterationEnds(k, a, c, i + 1, inFork, w2);
          var (s, w3) := NextIteration(k.o, c, i + 1, w2);
          if s.None? {
            LoopEnds(k, a, c, i + 1, d.value.1, inFork, w3);
          }
        } else {
          Faulted(k, a, Raised(UnknownLoopTag(d.value.0)), w2);
        }
      }
    }
  }

  lemma Dropped(k: Setting, a: int, c: Cont, ids: set<string>, w: World)
    requires Kept(k) && k.law(a, None, w) && Inside(c, k.root) && c.Loop?
    ensures k.law(a, None, w.(snap := RemoveTaskResults(w.snap, ids)))
  {
    assert KeptByLoops(k.o, k.root, k.law);
  }

  lemma LoopRecordEnds(k: Setting, a: int, c: Cont, v: Bytes, w: World)
    requires Kept(k) && k.law(a, None, w) && Inside(c, k.root) && c.Loop?
    ensures
      var (r, w') := Record(k.o, c.id, v, w.(snap := ClearLoopIteration(w.snap, c.id)));
      Ends(k, a, true, r, w')
  {
    assert KeptByLoops(k.o, k.root, k.law);
    RecordEnds(k, a, c.id, v, w.(snap := ClearLoopIteration(w.snap, c.id)));
  }

  lemma IterationEnds(k: Setting, a: int, c: Cont, i: nat, inFork: bool, w: World)
    requires Kept(k) && k.law(a, None, w) && FitsNode(k, c, inFork) && c.Loop? && 1 <= i <= c.maxIterations
    ensures var (s, w') := NextIteration(k.o, c, i, w); k.law(a, s, w') && !(s.Some? && s.value.Waiting?)
  {
    assert KeptByLoops(k.o, k.root, k.law);
  }

  // ----- histories -----

  /** Between actions `rest` holds: it survives everything around a walk, and lets a walk start. */
  ghost predicate KeptBetween(k: Setting, rest: World -> bool) {
    && (forall w :: rest(w) ==> rest(w.(snap := w.saved)))
    && (forall w :: rest(w) && w.snap == w.saved && w.saved.state.InProgress? ==>
          var (hold, w') := ResolveParked(k.o, w); if hold.None? then k.law(0, None, w') else rest(w'))
    && (forall w :: k.law(0, None, w) ==> rest(w))
    && (forall r, w :: k.law(0, StopOf(r), w) ==> rest(Finalize(k.o, r, w)))
    && (forall w :: rest(w) && w.saved.state.Paused? ==> rest(Checkpoint(k.o, w.(snap := MarkUnpaused(w.saved))).1))
  }

  lemma WalkRests(k: Setting, rest: World -> bool, x: Bytes, w: World)
    requires Kept(k) && KeptBetween(k, rest) && k.law(0, None, w) && (k.calm ==> NoDelayInFork(k.root, false))
    ensures rest(Walk(k.env, k.o, k.root, x, w).1)
  {
    hide Kept, NoDelayInFork, Exec, Finalize;
    assert Inside(k.root, k.root);
    ExecEnds(k, 0, k.root, x, false, w);
    var (r, w1) := Exec(k.env, k.o, k.root, x, w);
    assert k.law(0, StopOf(r), w1) && rest(Finalize(k.o, r, w1));
  }

  lemma PerformRests(k: Setting, rest: World -> bool, a: Action, w: World)
    requires Kept(k) && KeptBetween(k, rest) && rest(w) && (k.calm ==> NoDelayInFork(k.root, false))
    ensures rest(Perform(k.env, k.o, k.root, a, w))
  {
    hide Kept, NoDelayInFork, Walk, ResolveParked, Checkpoint;
    if a.Resume? {
      var w1 := w.(snap := w.saved);
      assert rest(w1);
      if w1.snap.state.InProgress? {
        var (hold, w2) := ResolveParked(k.o, w1);
        assert if hold.None? then k.law(0, None, w2) else rest(w2);
        if hold.None? && ResumeInput(w2.snap).Some? {
          WalkRests(k, rest, ResumeInput(w2.snap).value, w2);
        }
      }
    }
  }

  /** A law that every operation keeps holds after every history. */
  lemma {:induction false} HistoryRests(k: Setting, rest: World -> bool, x: Bytes, actions: seq<Action>)
    requires Kept(k) && KeptBetween(k, rest) && k.law(0, None, Created(k.root, x))
    requires k.calm ==> NoDelayInFork(k.root, false)
    ensures rest(History(k.env, k.o, k.root, x, actions))
    decreases |actions|
  {
    hide Kept, KeptBetween, NoDelayInFork, Walk, Perform;
    if actions == [] {
      WalkRests(k, rest, x, Created(k.root, x));
    } else {
      var n := |actions| - 1;
      HistoryRests(k, rest, x, actions[..n]);
      PerformRests(k, rest, actions[n], History(k.env, k.o, k.root, x, actions[..n]));
    }
  }
}
