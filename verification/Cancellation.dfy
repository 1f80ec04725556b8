/**
 Cancel and pause requests. A walk asks for them at every node and after every task; a request that is seen
 stops it at once, and what it leaves in the store is final, or can be undone, accordingly.
 */
module Cancellation {
  import opened Prelude
  import opened Continuation
  import opened Semantics
  import opened Snapshots
  import opened Durable
  import opened Lifecycle

  /** A moment at which requests are looked for, on behalf of the scope. */
  datatype Point = Point(scope: Option<string>, world: World)

  // ----- where requests are looked for -----

  /** The points a walk comes to: on entry to every node, and again after every completed task. */
  function Guards(env: Env, o: Oracle, c: Cont, x: Bytes, w: World): seq<Point>
    decreases c, 4
  {
    var (r, w1) := ExecNode(env, o, c, x, w);
    NodeGuards(env, o, c, x, w) +
      if r.Ok? && Next(c).Some? then Guards(env, o, Next(c).value, r.value, w1) else []
  }

  function ScopeOf(c: Cont): Option<string> {
    if c.Fork? then None else Some(c.id)
  }

  function NodeGuards(env: Env, o: Oracle, c: Cont, x: Bytes, w: World): seq<Point>
    decreases c, 3
  {
    var (g, w1) := Guard(o, ScopeOf(c), w);
    [Point(ScopeOf(c), w)] +
      if g.Some? || (!c.Fork? && TaskResult(w1.snap, c.id).Some?) then [] else InnerGuards(env, o, c, x, w1)
  }

  function InnerGuards(env: Env, o: Oracle, c: Cont, x: Bytes, w: World): seq<Point>
    decreases c, 2
  {
    match c
    case Task(id, _, _, _) =>
      var (v, w1) := CallTask(env, o, id, x, false, w);
      if v.Err? then [] else
      var (r, w2) := RecordStep(o, c, v.value, w1);
      if r.Err? then [] else [Point(None, w2)]
    case Fork(_, branches, _) => BranchGuards(env, o, branches, x, w)
    case Branch(id, _, _, _, _) =>
      var (k, w1) := CallTask(env, o, KeyFnId(id), x, true, w);
      if k.Err? || Choose(env, c, k.value).Err? then [] else
      Guards(env, o, Choose(env, c, k.value).value.1, x, w1)
    case Loop(id, _, _, _, _) => LoopGuards(env, o, c, LoopIteration(w.snap, id), x, w)
    case ChildWorkflow(_, child, _) => Guards(env, o, child, x, w)
    case _ => []
  }

  function BranchGuards(env: Env, o: Oracle, branches: seq<Cont>, x: Bytes, w: World): seq<Point>
    decreases branches, 5
  {
    if branches == [] then [] else
    var b := branches[0];
    if TaskResult(w.snap, b.id).Some? then BranchGuards(env, o, branches[1..], x, w) else
    var (r, w1) := Exec(env, o, b, x, w);
    Guards(env, o, b, x, w) +
      if r.Ok? then
        var (s, w2) := Record(o, b.id, r.value, w1);
        if s.Err? then [] else BranchGuards(env, o, branches[1..], x, w2)
      else if r.error.Waiting? then BranchGuards(env, o, branches[1..], x, w1)
      else []
  }

  function LoopGuards(env: Env, o: Oracle, c: Cont, i: nat, x: Bytes, w: World): seq<Point>
    requires c.Loop?
    decreases c, 1, c.maxIterations - i
  {
    if i >= c.maxIterations then [] else
    var (r, w1) := Exec(env, o, c.body, x, w);
    Guards(env, o, c.body, x, w) +
      if r.Err? then [] else
      var d := env.decodeLoop(r.value);
      if d.Err? || d.value.0 != "again" then [] else
      var (s, w2) := NextIteration(o, c, i + 1, w1.(snap := RemoveTaskResults(w1.snap, Ids(c.body))));
      if s.Some? then [] else LoopGuards(env, o, c, i + 1, d.value.1, w2)
  }

  // ----- a request that is seen stops the walk -----

  predicate Requested(v: Verdict) {
    v.CancelRequested? || v.PauseRequested?
  }

  /** The point stops the walk: a request is pending and the instance can be stopped, or the backend fails. */
  predicate Seen(o: Oracle, p: Point) {
    var v := o.guard(p.world.tick);
    !v.Pass? && (Requested(v) ==> p.world.saved.state.InProgress?)
  }

  /** What a request makes of the stored snapshot: nothing is lost of a paused one but its being in progress. */
  function Marked(v: Verdict, scope: Option<string>, s: Snapshot): Snapshot
    requires Requested(v) && s.state.InProgress?
  {
    match v
    case CancelRequested => s.(state := Cancelled(s.state.completed, scope))
    case PauseRequested => s.(state := Paused(s.state.position, s.state.completed, s.state.last))
  }

  function StopFor(v: Verdict): Stop
    requires !v.Pass?
  {
    match v
    case CancelRequested => CancelledByUser
    case PauseRequested => PausedByUser
    case GuardFails => BackendFailure
    case GuardCrashes => Crash
  }

  /** The world in which the walk stops: a marked snapshot is stored, and nothing else happens. */
  function Heeded(o: Oracle, p: Point): World
    requires Seen(o, p)
  {
    var v, w := o.guard(p.world.tick), p.world.(tick := p.world.tick + 1);
    if !Requested(v) then w else
    var s := Marked(v, p.scope, p.world.saved);
    World(w.snap, s, w.tick, w.trace + [Saved(s)])
  }

  /** The walk ends at the point. */
  ghost predicate EndsAt(o: Oracle, p: Point, r: ExecResult, w: World)
    requires Seen(o, p)
  {
    r == Err(StopFor(o.guard(p.world.tick))) && w == Heeded(o, p)
  }

  lemma GuardHeeds(o: Oracle, p: Point)
    requires Seen(o, p)
    ensures Guard(o, p.scope, p.world) == (Some(StopFor(o.guard(p.world.tick))), Heeded(o, p))
  {
  }

  lemma {:induction false} ExecHeeds(env: Env, o: Oracle, c: Cont, x: Bytes, w: World, p: Point)
    requires p in Guards(env, o, c, x, w) && Seen(o, p)
    ensures var (r, w') := Exec(env, o, c, x, w); EndsAt(o, p, r, w')
    decreases c, 4
  {
    hide ExecNode, NodeGuards, Heeded;
    var (r, w1) := ExecNode(env, o, c, x, w);
    if p in NodeGuards(env, o, c, x, w) {
      NodeHeeds(env, o, c, x, w, p);
    } else {
      ExecHeeds(env, o, Next(c).value, r.value, w1, p);
    }
  }

  lemma {:induction false} NodeHeeds(env: Env, o: Oracle, c: Cont, x: Bytes, w: World, p: Point)
    requires p in NodeGuards(env, o, c, x, w) && Seen(o, p)
    ensures var (r, w') := ExecNode(env, o, c, x, w); EndsAt(o, p, r, w')
    decreases c, 3
  {
    if p == Point(ScopeOf(c), w) {
      GuardHeeds(o, p);
      hide Guard, Heeded;
      assert Guard(o, ScopeOf(c), w) == (Some(StopFor(o.guard(w.tick))), Heeded(o, p));
    } else {
      hide Guard, Heeded, InnerGuards, ExecBranches, Exec, ExecLoop, CallTask;
      var (g, w1) := Guard(o, ScopeOf(c), w);
      match c
      case Task(_, _, _, _) => TaskHeeds(env, o, c, x, w, p);
      case Fork(_, _, _) => ForkHeeds(env, o, c, x, w1, p);
      case Branch(_, _, _, _, _) => BranchHeeds(env, o, c, x, w1, p);
      case Loop(id, _, _, _, _) =>
        assert p in LoopGuards(env, o, c, LoopIteration(w1.snap, id), x, w1) by {
          NoInner(env, o, c, x, w1);
        }
        LoopHeeds(env, o, c, LoopIteration(w1.snap, id), x, w1, p);
      case ChildWorkflow(_, child, _) =>
        assert p in Guards(env, o, child, x, w1) by {
          NoInner(env, o, c, x, w1);
        }
        ExecHeeds(env, o, child, x, w1, p);
      case _ => NoInner(env, o, c, x, w1);
    }
  }

  /** Where the points inside a node come from. */
  lemma NoInner(env: Env, o: Oracle, c: Cont, x: Bytes, w: World)
    ensures c.Delay? || c.AwaitSignal? ==> InnerGuards(env, o, c, x, w) == []
    ensures c.Loop? ==> InnerGuards(env, o, c, x, w) == LoopGuards(env, o, c, LoopIteration(w.snap, c.id), x, w)
    ensures c.ChildWorkflow? ==> InnerGuards(env, o, c, x, w) == Guards(env, o, c.child, x, w)
    ensures c.Fork? ==> InnerGuards(env, o, c, x, w) == BranchGuards(env, o, c.branches, x, w)
  {
  }

  lemma TaskHeeds(env: Env, o: Oracle, c: Cont, x: Bytes, w: World, p: Point)
    requires c.Task? && p in NodeGuards(env, o, c, x, w) && p != Point(Some(c.id), w) && Seen(o, p)
    ensures var (r, w') := ExecTask(env, o, c, x, w); EndsAt(o, p, r, w')
  {
    hide Guard, Heeded, CallTask, RecordStep;
    GuardHeeds(o, p);
  }

  lemma {:induction false} ForkHeeds(env: Env, o: Oracle, c: Cont, x: Bytes, w: World, p: Point)
    requires c.Fork? && p in InnerGuards(env, o, c, x, w) && Seen(o, p)
    ensures
      var (r, w') := ExecBranches(env, o, c.branches, x, [], None, w);
      r.Err? && EndsAt(o, p, Err(r.error), w')
    decreases c, 2
  {
    BranchesHeed(env, o, c.branches, x, [], None, w, p);
  }

  lemma {:induction false} BranchesHeed(
      env: Env, o: Oracle, branches: seq<Cont>, x: Bytes, results: seq<(string, Bytes)>, wake: Option<int>, w: World,
      p: Point)
    requires p in BranchGuards(env, o, branches, x, w) && Seen(o, p)
    ensures
      var (r, w') := ExecBranches(env, o, branches, x, results, wake, w);
      r.Err? && EndsAt(o, p, Err(r.error), w')
    decreases branches, 5
  {
    hide Exec, Record, Guards, Heeded;
    var b, rest := branches[0], branches[1..];
    if TaskResult(w.snap, b.id).Some? {
      BranchesHeed(env, o, rest, x, results + [(b.id, TaskResult(w.snap, b.id).value)], wake, w, p);
    } else {
      var (r, w1) := Exec(env, o, b, x, w);
      if p in Guards(env, o, b, x, w) {
        ExecHeeds(env, o, b, x, w, p);
      } else if r.Ok? {
        var (s, w2) := Record(o, b.id, r.value, w1);
        BranchesHeed(env, o, rest, x, results + [(b.id, r.value)], wake, w2, p);
      } else {
        BranchesHeed(env, o, rest, x, results, Later(wake, r.error.wakeAt), w1, p);
      }
    }
  }

  lemma {:induction false} BranchHeeds(env: Env, o: Oracle, c: Cont, x: Bytes, w: World, p: Point)
    requires c.Branch? && p in InnerGuards(env, o, c, x, w) && Seen(o, p)
    ensures
      var (k, w1) := CallTask(env, o, KeyFnId(c.id), x, true, w);
      && k.Ok? && Choose(env, c, k.value).Ok?
      && var (r, w') := Exec(env, o, Choose(env, c, k.value).value.1, x, w1); EndsAt(o, p, r, w')
    decreases c, 2
  {
    hide Exec, CallTask, Guards, Heeded;
    var (k, w1) := CallTask(env, o, KeyFnId(c.id), x, true, w);
    ExecHeeds(env, o, Choose(env, c, k.value).value.1, x, w1, p);
  }

  lemma {:induction false} LoopHeeds(env: Env, o: Oracle, c: Cont, i: nat, x: Bytes, w: World, p: Point)
    requires c.Loop? && p in LoopGuards(env, o, c, i, x, w) && Seen(o, p)
    ensures var (r, w') := ExecLoop(env, o, c, i, x, w); EndsAt(o, p, r, w')
    decreases c, 1, c.maxIterations - i
  {
    hide Exec, NextIteration, Guards, Heeded, Ids, Record;
    var (r, w1) := Exec(env, o, c.body, x, w);
    if p in Guards(env, o, c.body, x, w) {
      ExecHeeds(env, o, c.body, x, w, p);
    } else {
      var (s, w2) := NextIteration(o, c, i + 1, w1.(snap := RemoveTaskResults(w1.snap, Ids(c.body))));
      LoopHeeds(env, o, c, i + 1, env.decodeLoop(r.value).value.1, w2, p);
    }
  }

  // ----- whole histories -----

  /** The id of the wait a resume has to resolve first. */
  function WaitId(p: Position): Option<string> {
    match p
    case AtDelay(id, _, _, _) => Some(id)
    case AtFork(id, _, _) => Some(id)
    case AtSignal(id, _, _, _) => Some(id)
    case _ => None
  }

  /** The points a resume comes to: at the wait it resolves, and on its walk. */
  function AttemptGuards(env: Env, o: Oracle, c: Cont, w: World): seq<Point> {
    var w1 := w.(snap := w.saved);
    if !w1.snap.state.InProgress? then [] else
    var id := WaitId(w1.snap.state.position);
    var (hold, w2) := ResolveParked(o, w1);
    (if id.Some? then [Point(id, w1)] else []) +
      if hold.Some? || ResumeInput(w2.snap).None? then [] else Guards(env, o, c, ResumeInput(w2.snap).value, w2)
  }

  /** The points the last action of a history comes to. */
  function LastGuards(env: Env, o: Oracle, c: Cont, x: Bytes, actions: seq<Action>): seq<Point> {
    if actions == [] then Guards(env, o, c, x, Created(c, x)) else
    var n := |actions| - 1;
    if actions[n].Unpause? then [] else AttemptGuards(env, o, c, History(env, o, c, x, actions[..n]))
  }

  /** The store, history and clock after the request; memory is lost between actions. */
  ghost predicate Left(o: Oracle, p: Point, w: World)
    requires Seen(o, p)
  {
    var h := Heeded(o, p);
    w.saved == h.saved && w.trace == h.trace && w.tick == h.tick
  }

  lemma WalkHeeds(env: Env, o: Oracle, c: Cont, x: Bytes, w: World, p: Point)
    requires p in Guards(env, o, c, x, w) && Seen(o, p) && Requested(o.guard(p.world.tick))
    ensures Left(o, p, Walk(env, o, c, x, w).1)
  {
    hide Exec, Guards, Heeded;
    ExecHeeds(env, o, c, x, w, p);
  }

  /** A guard that fails is a failure of the instance. */
  lemma FailingGuardFails(env: Env, o: Oracle, c: Cont, x: Bytes, w: World, p: Point)
    requires p in Guards(env, o, c, x, w) && o.guard(p.world.tick).GuardFails? && o.save(p.world.tick + 1).Works?
    ensures var (r, w') := Walk(env, o, c, x, w); r == Err(BackendFailure) && w'.saved.state.Errored?
  {
    hide Exec, Guards;
    ExecHeeds(env, o, c, x, w, p);
  }

  lemma AttemptHeeds(env: Env, o: Oracle, c: Cont, w: World, p: Point)
    requires p in AttemptGuards(env, o, c, w) && Seen(o, p) && Requested(o.guard(p.world.tick))
    ensures Left(o, p, Attempt(env, o, c, w).1)
  {
    hide Walk, Guards, AnswerSignal, Checkpoint;
    var w1 := w.(snap := w.saved);
    var (hold, w2) := ResolveParked(o, w1);
    if p == Point(WaitId(w1.snap.state.position), w1) && p.scope.Some? {
      GuardHeeds(o, p);
      hide Guard, Heeded;
      assert Guard(o, WaitId(w1.snap.state.position), w1).0.Some?;
      assert hold == Some(Halted) && w2 == Heeded(o, p);
    } else {
      hide ResolveParked, Heeded;
      WalkHeeds(env, o, c, ResumeInput(w2.snap).value, w2, p);
    }
  }

  lemma LastHeeds(env: Env, o: Oracle, c: Cont, x: Bytes, actions: seq<Action>, p: Point)
    requires p in LastGuards(env, o, c, x, actions) && Seen(o, p) && Requested(o.guard(p.world.tick))
    ensures Left(o, p, History(env, o, c, x, actions))
  {
    hide Walk, Attempt, Guards, AttemptGuards, Left;
    if actions == [] {
      WalkHeeds(env, o, c, x, Created(c, x), p);
    } else {
      AttemptHeeds(env, o, c, History(env, o, c, x, actions[..|actions| - 1]), p);
    }
  }

  /** Nothing changes an instance that has ended. */
  lemma {:induction false} EndedStays(
      env: Env, o: Oracle, c: Cont, x: Bytes, actions: seq<Action>, more: seq<Action>)
    requires
      var s := History(env, o, c, x, actions).saved;
      s.state.Cancelled? || s.state.Completed? || s.state.Errored?
    ensures
      var w, w' := History(env, o, c, x, actions), History(env, o, c, x, actions + more);
      w'.saved == w.saved && w'.trace == w.trace
    decreases |more|
  {
    if more == [] {
      assert actions + more == actions;
    } else {
      var n := |more| - 1;
      EndedStays(env, o, c, x, actions, more[..n]);
      assert (actions + more)[..|actions| + n] == actions + more[..n];
      assert (actions + more)[|actions| + n] == more[n];
    }
  }
}
