/** Concrete runs that show what goes wrong outside the supported trees. */
module Limits {
  import opened Prelude
  import opened Continuation
  import opened Semantics
  import opened Snapshots
  import opened Durable
  import opened DurableFresh
  import opened Agreement
  import opened DurableResume
  import opened Lifecycle
  import opened CrashResume
  import opened NoRepeat
  import opened DelaySafety
  import opened StepperLimits

  const NO_META := TaskMeta(None, None, None, None, [])

  // ----- the durable executor -----

  /** Everything works, except that the process dies before the call at step `t`. */
  function CrashAt(t: nat): Oracle {
    Oracle((n: nat) => Pass, (n: nat) => Works, (n: nat) => if n == t then LostBefore else Returns,
           (n: nat, name: string) => NoMail, (n: nat) => n)
  }

  /** A task that has no result yet is called, recorded and saved. */
  lemma TaskRuns(env: Env, t: nat, c: Cont, x: Bytes, w: World, v: Bytes)
    requires c.Task? && w.snap.state.InProgress? && c.id !in w.snap.state.completed
    requires t != w.tick + 1 && env.task(c.id, x) == Ok(v)
    ensures
      var p := if c.next.Some? then AtTask(FirstTaskId(c.next.value)) else w.snap.state.position;
      var s := w.snap.(state := InProgress(p, w.snap.state.completed[c.id := v], Some(c.id)));
      ExecNode(env, CrashAt(t), c, x, w) ==
        (Ok(v), World(s, s, w.tick + 4, w.trace + [Called(c.id, x, false, w.tick + 1)] + [Saved(s)]))
  {
    hide Exec, ExecBranches, ExecLoop, FirstTaskId;
  }

  /** The process dies before the task is called. */
  lemma TaskCrashes(env: Env, t: nat, c: Cont, x: Bytes, w: World)
    requires c.Task? && w.snap.state.InProgress? && c.id !in w.snap.state.completed && t == w.tick + 1
    ensures ExecNode(env, CrashAt(t), c, x, w) == (Err(Crash), w.(tick := w.tick + 2))
  {
  }

  /** A recorded task is not called again. */
  lemma TaskReused(env: Env, t: nat, c: Cont, x: Bytes, w: World)
    requires c.Task? && w.snap.state.InProgress? && c.id in w.snap.state.completed
    ensures ExecNode(env, CrashAt(t), c, x, w) == (Ok(w.snap.state.completed[c.id]), w.(tick := w.tick + 1))
  {
  }

  /** A branch of a fork that is a single task. */
  lemma BranchRuns(env: Env, t: nat, id: string, x: Bytes, w: World, v: Bytes)
    requires w.snap.state.InProgress? && id !in w.snap.state.completed
    requires t != w.tick + 1 && env.task(id, x) == Ok(v)
    ensures
      var s := w.snap.(state := InProgress(w.snap.state.position, w.snap.state.completed[id := v], Some(id)));
      var trace := w.trace + [Called(id, x, false, w.tick + 1)] + [Saved(s)] + [Saved(s)];
      forall rest, results, wake ::
        ExecBranches(env, CrashAt(t), [Leaf(id)] + rest, x, results, wake, w) ==
        ExecBranches(env, CrashAt(t), rest, x, results + [(id, v)], wake, World(s, s, w.tick + 5, trace))
  {
    hide Exec, ExecBranches, Record;
    var s := w.snap.(state := InProgress(w.snap.state.position, w.snap.state.completed[id := v], Some(id)));
    var w1 := World(s, s, w.tick + 4, w.trace + [Called(id, x, false, w.tick + 1)] + [Saved(s)]);
    LeafRuns(env, t, id, x, w, v, w1);
    FirstBranch(env, CrashAt(t), Leaf(id), x, w, v, w1, Record(CrashAt(t), id, v, w1).1);
  }

  lemma LeafRuns(env: Env, t: nat, id: string, x: Bytes, w: World, v: Bytes, w1: World)
    requires w.snap.state.InProgress? && id !in w.snap.state.completed
    requires t != w.tick + 1 && env.task(id, x) == Ok(v)
    requires w1.snap == w.snap.(state := InProgress(w.snap.state.position, w.snap.state.completed[id := v], Some(id)))
    requires
      w1 == World(w1.snap, w1.snap, w.tick + 4, w.trace + [Called(id, x, false, w.tick + 1)] + [Saved(w1.snap)])
    ensures Exec(env, CrashAt(t), Leaf(id), x, w) == (Ok(v), w1)
    ensures Record(CrashAt(t), id, v, w1) == (Ok(v), Store(w1.(tick := w1.tick + 1), w1.snap))
  {
    hide ExecNode;
    TaskRuns(env, t, Leaf(id), x, w, v);
    assert w.snap.state.completed[id := v][id := v] == w.snap.state.completed[id := v];
    assert Mark(w1, id, v).snap == w1.snap;
  }

  lemma FirstBranch(env: Env, o: Oracle, c: Cont, x: Bytes, w: World, v: Bytes, w1: World, w2: World)
    requires TaskResult(w.snap, c.id).None? && Exec(env, o, c, x, w) == (Ok(v), w1)
    requires Record(o, c.id, v, w1) == (Ok(v), w2)
    ensures forall rest, results, wake ::
      ExecBranches(env, o, [c] + rest, x, results, wake, w) ==
      ExecBranches(env, o, rest, x, results + [(c.id, v)], wake, w2)
  {
    hide Exec, Record;
    forall rest, results, wake
      ensures ExecBranches(env, o, [c] + rest, x, results, wake, w) ==
              ExecBranches(env, o, rest, x, results + [(c.id, v)], wake, w2)
    {
      assert ([c] + rest)[1..] == rest;
    }
  }

  lemma BranchReused(env: Env, t: nat, id: string, x: Bytes, w: World)
    requires w.snap.state.InProgress? && id in w.snap.state.completed
    ensures
      forall rest, results, wake ::
        ExecBranches(env, CrashAt(t), [Leaf(id)] + rest, x, results, wake, w) ==
        ExecBranches(env, CrashAt(t), rest, x, results + [(id, w.snap.state.completed[id])], wake, w)
  {
    forall rest, results, wake
      ensures ExecBranches(env, CrashAt(t), [Leaf(id)] + rest, x, results, wake, w) ==
              ExecBranches(env, CrashAt(t), rest, x, results + [(id, w.snap.state.completed[id])], wake, w)
    {
      assert ([Leaf(id)] + rest)[1..] == rest;
    }
  }

  lemma BranchCrashes(env: Env, t: nat, id: string, x: Bytes, w: World, results: seq<(string, Bytes)>)
    requires w.snap.state.InProgress? && id !in w.snap.state.completed && t == w.tick + 1
    ensures ExecBranches(env, CrashAt(t), [Leaf(id)] + [], x, results, None, w) == (Err(Crash), w.(tick := w.tick + 2))
  {
    TaskCrashes(env, t, Leaf(id), x, w);
    assert Exec(env, CrashAt(t), Leaf(id), x, w) == (Err(Crash), w.(tick := w.tick + 2));
  }

  function TwoBranches(a: string, b: string): Cont {
    Fork("f", [Leaf(a)] + ([Leaf(b)] + []), None)
  }

  /** A task or a delay holds no other node. */
  lemma PlainShape(c: Cont)
    requires c.Task? || c.Delay?
    ensures NodeIds(c) == {c.id} && DistinctNode(c) && LoopFreeNode(c)
    ensures Ids(c) == {c.id} + if c.next.Some? then Ids(c.next.value) else {}
  {
  }

  lemma LeafShape(id: string)
    ensures Ids(Leaf(id)) == {id} && Distinct(Leaf(id)) && LoopFree(Leaf(id)) && forall top :: Resumable(Leaf(id), top)
  {
    PlainShape(Leaf(id));
  }

  /** Only the root is at fault: it is a fork. */
  lemma TwoBranchesShape(a: string, b: string)
    requires a != b
    ensures var c := TwoBranches(a, b); Distinct(c) && Resumable(c, true) && !RootSafe(c)
  {
    var bs := TwoBranches(a, b).branches;
    LeafShape(a);
    LeafShape(b);
    assert bs[0] == Leaf(a) && bs[1..] == [Leaf(b)] && [Leaf(b)][1..] == [];
    assert BranchIds([Leaf(b)]) == {b} + {} && DistinctBranches([Leaf(b)]) && DistinctBranches(bs);
    assert forall n :: n in bs ==> n == Leaf(a) || n == Leaf(b);
  }

  /** The store after the process died between the branches. */
  function HalfDone(a: string, x: Bytes, v: Bytes): Snapshot {
    Snapshot(InProgress(AtTask(a), map[a := v], Some(a)), Some(x), map[])
  }

  lemma LaunchDies(env: Env, a: string, b: string, x: Bytes, v: Bytes)
    requires a != b && env.task(a, x) == Ok(v)
    ensures
      var w := History(env, CrashAt(7), TwoBranches(a, b), x, []);
      w.snap == w.saved == HalfDone(a, x, v) && w.tick == 8
  {
    var o, c := CrashAt(7), TwoBranches(a, b);
    assert c.branches[0] == Leaf(a) && FirstTaskId(Leaf(a)) == a && FirstTaskId(c) == a;
    var w0 := Created(c, x);
    var w1 := w0.(tick := 1);
    var s := HalfDone(a, x, v);
    assert map[][a := v] == map[a := v];
    var w2 := World(s, s, 6, w0.trace + [Called(a, x, false, 2)] + [Saved(s)] + [Saved(s)]);
    BranchRuns(env, 7, a, x, w1, v);
    BranchCrashes(env, 7, b, x, w2, [] + [(a, v)]);
    hide ExecBranches;
    assert ExecBranches(env, o, c.branches, x, [], None, w1) == (Err(Crash), w2.(tick := 8));
    assert Exec(env, o, c, x, w0) == (Err(Crash), w2.(tick := 8));
  }

  /**
   A fork at the root: a process that dies between two branches resumes with the first branch's result
   in place of the workflow's input, and calls the second branch with it. That is a call the semantics
   makes only if the result happens to equal the input.
   */
  lemma RootForkMixesInputs(env: Env, a: string, b: string, x: Bytes, v: Bytes, done: Recorded)
    requires a != b && env.task(a, x) == Ok(v)
    ensures
      var c := TwoBranches(a, b);
      && Distinct(c) && Resumable(c, true) && !RootSafe(c)
      && Called(b, v, false, 10) in History(env, CrashAt(7), c, x, [Resume]).trace
      && (Call(b, v) in Demand(env, done, c, x) <==> v == x)
  {
    var o, c := CrashAt(7), TwoBranches(a, b);
    TwoBranchesShape(a, b);
    hide Distinct, Resumable;
    LaunchDies(env, a, b, x, v);
    var w := History(env, o, c, x, []);
    assert [Resume][..0] == [];
    assert History(env, o, c, x, [Resume]) == Attempt(env, o, c, w).1;
    hide History;
    ResumeCalls(env, a, b, x, v, w);
    DemandOfTwo(env, a, b, x, done);
  }

  lemma DemandOfLeaf(env: Env, id: string, x: Bytes, done: Recorded)
    ensures Demand(env, done, Leaf(id), x) == iset{Call(id, x)}
  {
    var c := Leaf(id);
    assert DemandNode(env, done, c, x) == iset{Call(id, x)};
    assert Demand(env, done, c, x) == iset{Call(id, x)} + iset{};
  }

  lemma DemandOfTwo(env: Env, a: string, b: string, x: Bytes, done: Recorded)
    ensures Demand(env, done, TwoBranches(a, b), x) == iset{Call(a, x), Call(b, x)}
  {
    var c := TwoBranches(a, b);
    DemandOfLeaf(env, a, x, done);
    DemandOfLeaf(env, b, x, done);
    assert Demand(env, done, c, x) == DemandNode(env, done, c, x) + iset{};
    hide Demand;
    assert c.branches[0] == Leaf(a) && c.branches[1] == Leaf(b);
    assert forall n :: n in c.branches <==> n == Leaf(a) || n == Leaf(b);
    assert DemandNode(env, done, c, x) == iset{Call(a, x), Call(b, x)};
  }

  lemma ResumeCalls(env: Env, a: string, b: string, x: Bytes, v: Bytes, w: World)
    requires a != b && w.saved == HalfDone(a, x, v) && w.tick == 8
    ensures Called(b, v, false, 10) in Attempt(env, CrashAt(7), TwoBranches(a, b), w).1.trace
  {
    var o, c := CrashAt(7), TwoBranches(a, b);
    var w1 := w.(snap := w.saved);
    var w2 := w1.(tick := 9);
    assert a in w1.snap.state.completed;
    assert ResolveParked(o, w1) == (None, w1) && ResumeInput(w1.snap) == Some(v);
    BranchReused(env, 7, a, v, w2);
    BranchCalls(env, b, v, w2, [(a, v)]);
    hide ExecBranches;
    var (r, w3) := ExecBranches(env, o, c.branches, v, [], None, w2);
    assert [] + [(a, v)] == [(a, v)];
    assert (r, w3) == ExecBranches(env, o, [Leaf(b)] + [], v, [(a, v)], None, w2);
    var (r4, w4) := ExecNode(env, o, c, v, w1);
    assert w4.trace == w3.trace;
    assert Exec(env, o, c, v, w1) == (r4, w4);
    assert Called(b, v, false, 10) in Finalize(o, r4, w4).trace;
  }

  lemma BranchCalls(env: Env, b: string, v: Bytes, w: World, results: seq<(string, Bytes)>)
    requires w.snap.state.InProgress? && b !in w.snap.state.completed && w.tick == 9
    ensures
      var (r, w') := ExecBranches(env, CrashAt(7), [Leaf(b)] + [], v, results, None, w);
      Called(b, v, false, 10) in w'.trace && (r.Ok? ==> r.value.1.None?)
  {
    var o := CrashAt(7);
    if env.task(b, v).Ok? {
      BranchRuns(env, 7, b, v, w, env.task(b, v).value);
    } else {
      var (r, w') := ExecNode(env, o, Leaf(b), v, w);
      assert Exec(env, o, Leaf(b), v, w) == (r, w');
      assert w'.trace[|w.trace|] == Called(b, v, false, 10);
    }
  }

  // ----- a fork branch with two tasks -----

  function ChainInFork(r: string, b: string, a: string): Cont {
    Task(r, None, NO_META, Some(Fork("f", [Task(b, None, NO_META, Some(Leaf(a)))], None)))
  }

  /** Only the fork branch is at fault: it holds two tasks. */
  lemma ChainInForkShape(r: string, b: string, a: string)
    requires r != b && r != a && b != a && r != "f"
    ensures var c := ChainInFork(r, b, a); Distinct(c) && RootSafe(c) && LoopFree(c) && !Resumable(c, true)
  {
    var c := ChainInFork(r, b, a);
    var f := c.next.value;
    var chain := f.branches[0];
    LeafShape(a);
    PlainShape(chain);
    PlainShape(c);
    assert Ids(chain) == {b, a} && Distinct(chain) && LoopFree(chain);
    OneBranchShape(f, chain);
    hide NodeIds, DistinctNode, LoopFreeNode, ResumableNode;
    assert Distinct(c) && LoopFree(c) && !Resumable(c, true);
  }

  lemma OneBranchShape(f: Cont, b: Cont)
    requires f.Fork? && f.branches == [b] && f.join.None? && Distinct(b) && LoopFree(b) && !b.Fork?
    ensures Ids(f) == {f.id} + Ids(b) && Distinct(f) && LoopFree(f)
    ensures Next(b).Some? ==> !Resumable(f, true)
  {
    assert f.branches[1..] == [] && BranchIds(f.branches) == Ids(b) + {} && DistinctBranches(f.branches);
    assert NodeIds(f) == {f.id} + Ids(b);
    assert b in f.branches && (Next(b).Some? ==> !ResumableNode(f, true));
  }

  /** The store after the process died inside the branch, after its first task. */
  function HalfBranch(r: string, b: string, a: string, x: Bytes, y: Bytes, v: Bytes): Snapshot {
    Snapshot(InProgress(AtTask(a), map[r := y][b := v], Some(b)), Some(x), map[])
  }

  lemma LaunchDiesInBranch(env: Env, r: string, b: string, a: string, x: Bytes, y: Bytes, v: Bytes)
    requires r != b && r != a && b != a && env.task(r, x) == Ok(y) && env.task(b, y) == Ok(v)
    ensures
      var w := History(env, CrashAt(10), ChainInFork(r, b, a), x, []);
      && w.saved == HalfBranch(r, b, a, x, y, v) && w.tick == 11
      && forall e :: e in w.trace && e.Called? ==> e.id != a
  {
    hide Exec;
    WalkDiesInBranch(env, r, b, a, x, y, v);
  }

  lemma WalkDiesInBranch(env: Env, r: string, b: string, a: string, x: Bytes, y: Bytes, v: Bytes)
    requires r != b && r != a && b != a && env.task(r, x) == Ok(y) && env.task(b, y) == Ok(v)
    ensures
      var c := ChainInFork(r, b, a);
      var (e, w) := Exec(env, CrashAt(10), c, x, Created(c, x));
      && e == Err(Crash) && w.saved == HalfBranch(r, b, a, x, y, v) && w.tick == 11
      && forall e :: e in w.trace && e.Called? ==> e.id != a
  {
    var o, c := CrashAt(10), ChainInFork(r, b, a);
    var f := c.next.value;
    var chain := f.branches[0];
    var w0 := Created(c, x);
    var s1 := Snapshot(InProgress(AtTask(b), map[r := y], Some(r)), Some(x), map[]);
    assert map[][r := y] == map[r := y] && FirstTaskId(chain) == b && FirstTaskId(f) == b;
    TaskRuns(env, 10, c, x, w0, y);
    hide ExecNode, FirstTaskId;
    var w1 := World(s1, s1, 4, w0.trace + [Called(r, x, false, 1)] + [Saved(s1)]);
    assert ExecNode(env, o, c, x, w0) == (Ok(y), w1);
    var s2 := HalfBranch(r, b, a, x, y, v);
    var w3 := World(s2, s2, 11, w1.trace + [Called(b, y, false, 6)] + [Saved(s2)]);
    ChainDies(env, b, a, y, v, w1.(tick := 5), s2);
    ForkDies(env, f, y, w1, w3);
    assert Exec(env, o, f, y, w1) == (Err(Crash), w3);
    assert Exec(env, o, c, x, w0) == (Err(Crash), w3);
  }

  lemma ChainDies(env: Env, b: string, a: string, y: Bytes, v: Bytes, w: World, s: Snapshot)
    requires w.snap.state.InProgress? && w.tick == 5 && a != b && b !in w.snap.state.completed
    requires a !in w.snap.state.completed
    requires s == w.snap.(state := InProgress(AtTask(a), w.snap.state.completed[b := v], Some(b)))
    requires env.task(b, y) == Ok(v)
    ensures
      Exec(env, CrashAt(10), Task(b, None, NO_META, Some(Leaf(a))), y, w) ==
        (Err(Crash), World(s, s, 11, w.trace + [Called(b, y, false, 6)] + [Saved(s)]))
  {
    var chain := Task(b, None, NO_META, Some(Leaf(a)));
    TaskRuns(env, 10, chain, y, w, v);
    var w2 := World(s, s, 9, w.trace + [Called(b, y, false, 6)] + [Saved(s)]);
    TaskCrashes(env, 10, Leaf(a), v, w2);
    hide ExecNode;
    assert Exec(env, CrashAt(10), Leaf(a), v, w2) == (Err(Crash), w2.(tick := 11));
  }

  lemma ForkDies(env: Env, f: Cont, y: Bytes, w: World, w': World)
    requires f.Fork? && f.branches != [] && w.snap.state.InProgress? && f.branches[0].id !in w.snap.state.completed
    requires Exec(env, CrashAt(10), f.branches[0], y, w.(tick := w.tick + 1)) == (Err(Crash), w')
    ensures ExecNode(env, CrashAt(10), f, y, w) == (Err(Crash), w')
  {
    assert ExecBranches(env, CrashAt(10), f.branches, y, [], None, w.(tick := w.tick + 1)) == (Err(Crash), w');
  }

  /**
   A fork branch of two tasks is recorded under the id of its first task. A process that dies between
   the two completes with the first task's result for the branch, and never calls the second task.
   */
  lemma BranchIsCutShort(env: Env, r: string, b: string, a: string, x: Bytes, y: Bytes, v: Bytes, u: Bytes)
    requires r != b && r != a && b != a && r != "f" && env.task(r, x) == Ok(y) && env.task(b, y) == Ok(v)
    requires env.encodeNamed([(b, v)]) == Ok(u)
    ensures
      var c := ChainInFork(r, b, a);
      var w := History(env, CrashAt(10), c, x, [Resume]);
      && Distinct(c) && RootSafe(c) && LoopFree(c) && !Resumable(c, true)
      && w.saved.state == Completed(u) && forall e :: e in w.trace && e.Called? ==> e.id != a
  {
    var o, c := CrashAt(10), ChainInFork(r, b, a);
    ChainInForkShape(r, b, a);
    hide Distinct, Resumable, LoopFree;
    LaunchDiesInBranch(env, r, b, a, x, y, v);
    var w := History(env, o, c, x, []);
    assert [Resume][..0] == [];
    assert History(env, o, c, x, [Resume]) == Attempt(env, o, c, w).1;
    hide History;
    var f := c.next.value;
    var w1 := w.(snap := w.saved);
    assert b in w1.snap.state.completed;
    assert ResolveParked(o, w1) == (None, w1) && ResumeInput(w1.snap) == Some(v);
    TaskReused(env, 10, c, v, w1);
    var w2 := w1.(tick := 12);
    assert f.branches[1..] == [] && [] + [(b, v)] == [(b, v)];
    assert ExecBranches(env, o, f.branches, y, [], None, w1.(tick := 13)) == (Ok(([(b, v)], None)), w1.(tick := 13));
    assert ExecNode(env, o, f, y, w2) == (Ok(u), w1.(tick := 13));
    hide ExecNode;
    assert Exec(env, o, f, y, w2) == (Ok(u), w1.(tick := 13));
    assert Exec(env, o, c, v, w1) == (Ok(u), w1.(tick := 13));
  }

  // ----- a wait that ends a nested chain -----

  function DelayEndsChild(b: string, a: string): Cont {
    ChildWorkflow("w", Task(b, None, NO_META, Some(Delay("d", 0, None))), Some(Leaf(a)))
  }

  /** Only the delay is at fault: its chain ends with it. */
  lemma DelayEndsChildShape(b: string, a: string)
    requires a != b && a !in {"d", "w"} && b !in {"d", "w"}
    ensures var c := DelayEndsChild(b, a); Distinct(c) && RootSafe(c) && LoopFree(c) && !Resumable(c, true)
  {
    var c := DelayEndsChild(b, a);
    var d := c.child.next.value;
    LeafShape(a);
    PlainShape(d);
    PlainShape(c.child);
    assert Ids(d) == {"d"} && Ids(c.child) == {b, "d"} && Distinct(d) && Distinct(c.child);
    assert LoopFree(d) && LoopFree(c.child) && !Resumable(d, false) && !Resumable(c.child, false);
    ChildShape(c);
  }

  lemma ChildShape(c: Cont)
    requires c.ChildWorkflow? && c.next.Some? && Distinct(c.child) && Distinct(c.next.value) && c.id !in Ids(c.child)
    requires LoopFree(c.child) && LoopFree(c.next.value) && ({c.id} + Ids(c.child)) !! Ids(c.next.value)
    ensures Distinct(c) && LoopFree(c) && (Resumable(c, true) ==> Resumable(c.child, false))
  {
    assert NodeIds(c) == {c.id} + Ids(c.child);
    assert Resumable(c, true) ==> ResumableNode(c, true);
    assert ResumableNode(c, true) ==> Resumable(c.child, false);
  }

  /** The store once the child's delay has parked. */
  function ParkedInChild(b: string, x: Bytes, v: Bytes): Snapshot {
    Snapshot(InProgress(AtDelay("d", 6, 6, None), map[b := v]["d" := v], Some("d")), Some(x), map[])
  }

  lemma ChildParks(env: Env, b: string, a: string, x: Bytes, v: Bytes)
    requires b != a && b != "d" && b != "w" && env.task(b, x) == Ok(v)
    ensures
      var w := History(env, CrashAt(0), DelayEndsChild(b, a), x, []);
      && w.snap == w.saved == ParkedInChild(b, x, v) && w.tick == 7
      && forall e :: e in w.trace && e.Called? ==> e.id != a
  {
    var o, c := CrashAt(0), DelayEndsChild(b, a);
    var d := c.child.next.value;
    var w0 := Created(c, x);
    var s1 := Snapshot(InProgress(AtTask("d"), map[b := v], Some(b)), Some(x), map[]);
    assert map[][b := v] == map[b := v] && FirstTaskId(d) == "d";
    TaskRuns(env, 0, c.child, x, w0.(tick := 1), v);
    var w1 := World(s1, s1, 5, w0.trace + [Called(b, x, false, 2)] + [Saved(s1)]);
    assert ExecNode(env, o, c.child, x, w0.(tick := 1)) == (Ok(v), w1);
    var s2 := ParkedInChild(b, x, v);
    var w2 := World(s2, s2, 7, w1.trace + [Saved(s2)]);
    assert ExecNode(env, o, d, v, w1) == (Err(Waiting(6)), w2);
    hide ExecNode, FirstTaskId;
    assert Exec(env, o, d, v, w1) == (Err(Waiting(6)), w2);
    assert Exec(env, o, c.child, x, w0.(tick := 1)) == (Err(Waiting(6)), w2);
    ChildStops(env, c, x, w0, Waiting(6), w2);
  }

  lemma ChildStops(env: Env, c: Cont, x: Bytes, w: World, s: Stop, w': World)
    requires c.ChildWorkflow? && w.snap.state.InProgress? && c.id !in w.snap.state.completed
    requires Exec(env, CrashAt(0), c.child, x, w.(tick := w.tick + 1)) == (Err(s), w')
    ensures Exec(env, CrashAt(0), c, x, w) == (Err(s), w')
  {
    assert ExecNode(env, CrashAt(0), c, x, w) == (Err(s), w');
  }

  /**
   A delay at the end of a child workflow has no successor in its chain. Resuming it completes the
   whole workflow with the value at the delay, and the task after the child is never called.
   */
  lemma DelayAtChildEndFinishes(env: Env, b: string, a: string, x: Bytes, v: Bytes)
    requires a != b && a !in {"d", "w"} && b !in {"d", "w"} && env.task(b, x) == Ok(v)
    ensures
      var c := DelayEndsChild(b, a);
      var w := History(env, CrashAt(0), c, x, [Resume]);
      && Distinct(c) && RootSafe(c) && LoopFree(c) && !Resumable(c, true)
      && w.saved.state == Completed(v) && forall e :: e in w.trace && e.Called? ==> e.id != a
  {
    var o, c := CrashAt(0), DelayEndsChild(b, a);
    DelayEndsChildShape(b, a);
    hide Distinct, Resumable, LoopFree;
    ChildParks(env, b, a, x, v);
    var w := History(env, o, c, x, []);
    assert [Resume][..0] == [];
    assert History(env, o, c, x, [Resume]) == Attempt(env, o, c, w).1;
    hide History, Exec;
    assert ResolveParked(o, w) == CompleteAtWait(o, v, w.(tick := 8));
  }

  // ----- loops -----

  /** The first iteration of a loop asks for another one. */
  lemma LoopGoesAgain(env: Env, a: string, c: Cont, x: Bytes, v: Bytes, y: Bytes, w: World, s1: Snapshot, s2: Snapshot)
    requires c == Loop("l", Leaf(a), 2, ExitWithLast, None) && w.snap == Fresh(x, a) && w.tick == 1
    requires env.task(a, x) == Ok(v) && env.decodeLoop(v) == Ok(("again", y))
    requires s1 == Snapshot(InProgress(AtTask(a), map[a := v], Some(a)), Some(x), map[])
    requires s2 == Snapshot(InProgress(InLoop("l", 1, Some(a)), map[], Some(a)), Some(x), map["l" := 1])
    ensures
      ExecLoop(env, CrashAt(0), c, 0, x, w) ==
      ExecLoop(env, CrashAt(0), c, 1, y,
        World(s2, s2, 6, w.trace + [Called(a, x, false, 2)] + [Saved(s1)] + [Saved(s2)]))
  {
    var o := CrashAt(0);
    assert FirstTaskId(Leaf(a)) == a && map[][a := v] == map[a := v];
    TaskRuns(env, 0, Leaf(a), x, w, v);
    var w1 := World(s1, s1, 5, w.trace + [Called(a, x, false, 2)] + [Saved(s1)]);
    assert Exec(env, o, Leaf(a), x, w) == (Ok(v), w1);
    assert Ids(Leaf(a)) == {a} && map[a := v] - {a} == map[];
    hide Exec, Ids, FirstTaskId;
    assert NextIteration(o, c, 1, w1.(snap := RemoveTaskResults(s1, {a}))) ==
      (None, World(s2, s2, 6, w1.trace + [Saved(s2)]));
  }

  /** A loop body's results are dropped between iterations, so its tasks are called again after a save. */
  lemma LoopRepeatsSavedTask(env: Env, a: string, x: Bytes, v: Bytes, y: Bytes, e: Error)
    requires a != "l" && env.task(a, x) == Ok(v) && env.decodeLoop(v) == Ok(("again", y)) && env.task(a, y) == Err(e)
    ensures !NeverRepeats(History(env, CrashAt(0), Loop("l", Leaf(a), 2, ExitWithLast, None), x, []).trace)
  {
    var o, c := CrashAt(0), Loop("l", Leaf(a), 2, ExitWithLast, None);
    assert FirstTaskId(Leaf(a)) == a && FirstTaskId(c) == a;
    var w0 := Created(c, x);
    var s1 := Snapshot(InProgress(AtTask(a), map[a := v], Some(a)), Some(x), map[]);
    var s2 := Snapshot(InProgress(InLoop("l", 1, Some(a)), map[], Some(a)), Some(x), map["l" := 1]);
    LoopGoesAgain(env, a, c, x, v, y, w0.(tick := 1), s1, s2);
    var w2 := World(s2, s2, 6, w0.trace + [Called(a, x, false, 2)] + [Saved(s1)] + [Saved(s2)]);
    var w3 := w2.(tick := 8, trace := w2.trace + [Called(a, y, false, 7)]);
    assert ExecNode(env, o, Leaf(a), y, w2) == (Err(Raised(e)), w3);
    assert Exec(env, o, Leaf(a), y, w2) == (Err(Raised(e)), w3);
    hide Exec, ExecNode, FirstTaskId;
    assert ExecLoop(env, o, c, 1, y, w2) == (Err(Raised(e)), w3);
    LoopNodeRuns(env, c, x, w0, Err(Raised(e)), w3);
    var w := History(env, o, c, x, []);
    assert w.trace[2] == Saved(s1) && w.trace[4] == Called(a, y, false, 7);
  }

  lemma LoopNodeRuns(env: Env, c: Cont, x: Bytes, w: World, r: ExecResult, w': World)
    requires c.Loop? && c.next.None? && w.snap.state.InProgress? && c.id !in w.snap.state.completed
    requires w.snap.loops == map[]
    requires ExecLoop(env, CrashAt(0), c, 0, x, w.(tick := w.tick + 1)) == (r, w')
    ensures Exec(env, CrashAt(0), c, x, w) == (r, w')
  {
  }

  // ----- a resumed loop -----

  /** A delay in front of the task `a`, as a loop body. */
  function SlowBody(a: string): Cont {
    Delay("d", 0, Some(Leaf(a)))
  }

  function SlowLoop(r: string, a: string): Cont {
    Task(r, None, NO_META, Some(Loop("l", SlowBody(a), 2, ExitWithLast, None)))
  }

  /** Only the loop is at fault. */
  lemma SlowLoopShape(r: string, a: string)
    requires r != a && r !in {"d", "l"} && a !in {"d", "l"}
    ensures var c := SlowLoop(r, a); Distinct(c) && RootSafe(c) && !LoopFree(c) && !Resumable(c, true)
  {
    var c, body := SlowLoop(r, a), SlowBody(a);
    var l := c.next.value;
    LeafShape(a);
    PlainShape(body);
    PlainShape(c);
    assert Ids(body) == {"d", a} && Distinct(body);
    LoopShape(l);
    hide NodeIds, DistinctNode, LoopFreeNode, ResumableNode;
    assert Distinct(c) && !LoopFree(c) && !Resumable(c, true);
  }

  lemma LoopShape(c: Cont)
    requires c.Loop? && c.next.None? && Distinct(c.body) && c.id !in Ids(c.body)
    ensures Ids(c) == {c.id} + Ids(c.body) && Distinct(c) && !LoopFree(c) && !Resumable(c, true)
  {
    assert NodeIds(c) == {c.id} + Ids(c.body);
    assert !LoopFreeNode(c) && !ResumableNode(c, true);
  }

  /** The results of the loop's root task, and of its delay. */
  function Passed(r: string, y: Bytes, z: Bytes): Recorded {
    map[r := y]["d" := z]
  }

  /** A snapshot in iteration `i`. */
  function Iterating(p: Position, done: Recorded, last: string, x: Bytes, i: nat): Snapshot {
    Snapshot(InProgress(p, done, Some(last)), Some(x), if i == 0 then map[] else map["l" := i])
  }

  /** The delay has no result: the body parks with the value it was given. */
  lemma BodyParks(env: Env, r: string, a: string, y: Bytes, z: Bytes, x: Bytes, i: nat, w: World)
    requires r != "d" && w.snap.state.InProgress? && w.snap.state.completed == map[r := y]
    requires w.snap.initialInput == Some(x) && w.snap.loops == (if i == 0 then map[] else map["l" := i])
    ensures
      var s := Iterating(AtDelay("d", w.tick + 1, w.tick + 1, Some(a)), Passed(r, y, z), "d", x, i);
      Exec(env, CrashAt(0), SlowBody(a), z, w) ==
        (Err(Waiting(w.tick + 1)), World(s, s, w.tick + 2, w.trace + [Saved(s)]))
  {
    assert FirstTaskId(Leaf(a)) == a && SuccessorId(SlowBody(a)) == Some(a);
    var s := Iterating(AtDelay("d", w.tick + 1, w.tick + 1, Some(a)), Passed(r, y, z), "d", x, i);
    assert ExecNode(env, CrashAt(0), SlowBody(a), z, w) ==
           (Err(Waiting(w.tick + 1)), World(s, s, w.tick + 2, w.trace + [Saved(s)]));
  }

  /** The delay has a result: the body passes its own input on to the task, not the recorded value. */
  lemma BodyPasses(env: Env, a: string, x: Bytes, v: Bytes, w: World)
    requires a != "d" && w.snap.state.InProgress? && "d" in w.snap.state.completed && a !in w.snap.state.completed
    requires env.task(a, x) == Ok(v)
    ensures
      var s := w.snap.(state := InProgress(w.snap.state.position, w.snap.state.completed[a := v], Some(a)));
      Exec(env, CrashAt(0), SlowBody(a), x, w) ==
        (Ok(v), World(s, s, w.tick + 5, w.trace + [Called(a, x, false, w.tick + 2)] + [Saved(s)]))
  {
    var o, w1 := CrashAt(0), w.(tick := w.tick + 1);
    assert ExecNode(env, o, SlowBody(a), x, w) == (Ok(x), w1);
    TaskRuns(env, 0, Leaf(a), x, w1, v);
    hide ExecNode;
    assert Exec(env, o, Leaf(a), x, w1) == ExecNode(env, o, Leaf(a), x, w1);
  }

  /** An iteration that asks for another one, up to the save of the iteration count. */
  lemma IterationRuns(
      env: Env, r: string, a: string, c: Cont, i: nat, y: Bytes, v: Bytes, z: Bytes, d: Bytes, x: Bytes, w: World)
    requires c == Loop("l", SlowBody(a), 2, ExitWithLast, None) && i < 2 && r !in {"d", a} && a != "d"
    requires w.snap.state.InProgress? && w.snap.state.completed == Passed(r, y, d) && w.snap.initialInput == Some(x)
    requires env.task(a, y) == Ok(v) && env.decodeLoop(v) == Ok(("again", z))
    ensures
      var s1 := w.snap.(state := InProgress(w.snap.state.position, Passed(r, y, d)[a := v], Some(a)));
      var s2 := Iterating(InLoop("l", i + 1, Some("d")), map[r := y], a, x, i + 1);
      w.snap.loops == (if i == 0 then map[] else map["l" := i]) ==>
      ExecLoop(env, CrashAt(0), c, i, y, w) == ExecLoop(env, CrashAt(0), c, i + 1, z,
        World(s2, s2, w.tick + 6, w.trace + [Called(a, y, false, w.tick + 2)] + [Saved(s1)] + [Saved(s2)]))
  {
    if w.snap.loops == (if i == 0 then map[] else map["l" := i]) {
      var o := CrashAt(0);
      BodyPasses(env, a, y, v, w);
      var s1 := w.snap.(state := InProgress(w.snap.state.position, Passed(r, y, d)[a := v], Some(a)));
      var w1 := World(s1, s1, w.tick + 5, w.trace + [Called(a, y, false, w.tick + 2)] + [Saved(s1)]);
      PlainShape(SlowBody(a));
      LeafShape(a);
      assert Ids(SlowBody(a)) == {"d", a} && FirstTaskId(SlowBody(a)) == "d";
      assert Passed(r, y, d)[a := v] - {"d", a} == map[r := y];
      hide Exec, Ids, FirstTaskId;
      var s2 := Iterating(InLoop("l", i + 1, Some("d")), map[r := y], a, x, i + 1);
      assert w.snap.loops["l" := i + 1] == map["l" := i + 1];
      assert NextIteration(o, c, i + 1, w1.(snap := RemoveTaskResults(s1, {"d", a}))) ==
             (None, World(s2, s2, w1.tick + 1, w1.trace + [Saved(s2)]));
    }
  }

  /** The call is not in the history. */
  ghost predicate NeverCalled(trace: seq<Event>, call: Call) {
    forall e :: e in trace && e.Called? ==> Call(e.id, e.input) != call
  }

  /** The wait at the delay is over, and the walk may start. */
  lemma WaitIsOver(a: string, s: Snapshot, done: Recorded, t: int, x: Bytes, i: nat, w: World)
    requires s == Iterating(AtDelay("d", t, t, Some(a)), done, "d", x, i) && "d" in done
    requires w.snap == w.saved == s && t <= w.tick
    ensures
      var s' := Iterating(AtTask(a), done, "d", x, i);
      && ResolveParked(CrashAt(0), w) == (None, World(s', s', w.tick + 2, w.trace + [Saved(s')]))
      && ResumeInput(s') == Some(done["d"])
  {
    assert done != map[];
  }

  /** The loop's root task is reused, and the loop goes on with its recorded output. */
  lemma LoopRestarts(env: Env, r: string, a: string, i: nat, x: Bytes, y: Bytes, d: Bytes, w: World)
    requires r !in {"d", "l"} && w.snap.state.InProgress? && w.snap.state.completed == Passed(r, y, d)
    requires w.snap.loops == (if i == 0 then map[] else map["l" := i])
    ensures
      var c := SlowLoop(r, a);
      Exec(env, CrashAt(0), c, x, w) == ExecLoop(env, CrashAt(0), c.next.value, i, y, w.(tick := w.tick + 2))
  {
    var o, c := CrashAt(0), SlowLoop(r, a);
    var l, w1 := c.next.value, w.(tick := w.tick + 1);
    TaskReused(env, 0, c, x, w);
    assert ExecNode(env, o, l, y, w1) == ExecLoop(env, o, l, i, y, w.(tick := w.tick + 2));
    hide ExecNode, ExecLoop;
    assert Exec(env, o, l, y, w1) == ExecNode(env, o, l, y, w1);
  }

  lemma LoopLaunch(env: Env, r: string, a: string, x: Bytes, y: Bytes, z: Bytes)
    requires r !in {"d", "l", a} && env.task(r, x) == Ok(y)
    ensures
      var w := History(env, CrashAt(0), SlowLoop(r, a), x, []);
      && w.snap == w.saved == Iterating(AtDelay("d", 6, 6, Some(a)), Passed(r, y, y), "d", x, 0) && w.tick == 7
      && NeverCalled(w.trace, Call(a, z))
  {
    var o, c := CrashAt(0), SlowLoop(r, a);
    var l, w0 := c.next.value, Created(c, x);
    assert FirstTaskId(SlowBody(a)) == "d" && FirstTaskId(l) == "d" && map[][r := y] == map[r := y];
    TaskRuns(env, 0, c, x, w0, y);
    hide FirstTaskId;
    var s1 := Iterating(AtTask("d"), map[r := y], r, x, 0);
    var w1 := World(s1, s1, 4, w0.trace + [Called(r, x, false, 1)] + [Saved(s1)]);
    assert ExecNode(env, o, c, x, w0) == (Ok(y), w1);
    BodyParks(env, r, a, y, y, x, 0, w1.(tick := 5));
    var s2 := Iterating(AtDelay("d", 6, 6, Some(a)), Passed(r, y, y), "d", x, 0);
    var w2 := World(s2, s2, 7, w1.trace + [Saved(s2)]);
    hide Exec, ExecNode;
    assert ExecLoop(env, o, l, 0, y, w1.(tick := 5)) == (Err(Waiting(6)), w2);
    LoopNodeRuns(env, l, y, w1, Err(Waiting(6)), w2);
    ChainGoes(env, c, x, w0, y, w1);
  }

  lemma ChainGoes(env: Env, c: Cont, x: Bytes, w: World, y: Bytes, w1: World)
    requires Next(c).Some? && ExecNode(env, CrashAt(0), c, x, w) == (Ok(y), w1)
    ensures Exec(env, CrashAt(0), c, x, w) == Exec(env, CrashAt(0), Next(c).value, y, w1)
  {
  }

  lemma AttemptWalks(env: Env, c: Cont, w: World, w2: World, x: Bytes, r: ExecResult, w3: World)
    requires w.saved.state.InProgress? && ResolveParked(CrashAt(0), w.(snap := w.saved)) == (None, w2)
    requires ResumeInput(w2.snap) == Some(x) && Exec(env, CrashAt(0), c, x, w2) == (r, w3)
    ensures Attempt(env, CrashAt(0), c, w).1 == Finalize(CrashAt(0), r, w3)
  {
  }

  lemma StillNeverCalled(t: seq<Event>, saves: seq<Event>, e: Event, call: Call)
    requires NeverCalled(t, call) && e.Called? && Call(e.id, e.input) != call
    requires forall s :: s in saves ==> s.Saved?
    ensures NeverCalled(t + saves, call) && NeverCalled(t + [e], call)
  {
  }

  lemma IterationNeverCalled(t: seq<Event>, s1: Snapshot, s2: Snapshot, e: Event, call: Call)
    requires NeverCalled(t, call) && e.Called? && Call(e.id, e.input) != call
    ensures NeverCalled(t + [e] + [Saved(s1)] + [Saved(s2)], call)
  {
    hide NeverCalled;
    StillNeverCalled(t, [], e, call);
    StillNeverCalled(t + [e], [Saved(s1)], e, call);
    StillNeverCalled(t + [e] + [Saved(s1)], [Saved(s2)], e, call);
  }

  /** From the saved delay of the first iteration to that of the second. */
  lemma IterationParks(env: Env, r: string, a: string, x: Bytes, y: Bytes, v: Bytes, z: Bytes, w: World)
    requires r !in {"d", "l", a} && a != "d" && env.task(a, y) == Ok(v)
    requires env.decodeLoop(v) == Ok(("again", z))
    requires w.snap == Iterating(AtTask(a), Passed(r, y, y), "d", x, 0)
    ensures
      var s1 := w.snap.(state := InProgress(AtTask(a), Passed(r, y, y)[a := v], Some(a)));
      var s2 := Iterating(InLoop("l", 1, Some("d")), map[r := y], a, x, 1);
      var s := Iterating(AtDelay("d", w.tick + 9, w.tick + 9, Some(a)), Passed(r, y, z), "d", x, 1);
      var trace := w.trace + [Called(a, y, false, w.tick + 4)] + [Saved(s1)] + [Saved(s2)] + [Saved(s)];
      Exec(env, CrashAt(0), SlowLoop(r, a), y, w) == (Err(Waiting(w.tick + 9)), World(s, s, w.tick + 10, trace))
  {
    hide Exec, ExecLoop, Passed;
    var l := SlowLoop(r, a).next.value;
    LoopRestarts(env, r, a, 0, y, y, y, w);
    IterationRuns(env, r, a, l, 0, y, v, z, y, x, w.(tick := w.tick + 2));
    var s1 := w.snap.(state := InProgress(AtTask(a), Passed(r, y, y)[a := v], Some(a)));
    var s2 := Iterating(InLoop("l", 1, Some("d")), map[r := y], a, x, 1);
    var w' := World(s2, s2, w.tick + 8, w.trace + [Called(a, y, false, w.tick + 4)] + [Saved(s1)] + [Saved(s2)]);
    BodyParks(env, r, a, y, z, x, 1, w');
    LoopBodyStops(env, l, 1, z, w', Waiting(w.tick + 9));
  }

  lemma LoopFirstResume(env: Env, r: string, a: string, x: Bytes, y: Bytes, v: Bytes, z: Bytes, w: World)
    requires r !in {"d", "l", a} && a != "d" && y != z && env.task(a, y) == Ok(v)
    requires env.decodeLoop(v) == Ok(("again", z))
    requires w.saved == Iterating(AtDelay("d", 6, 6, Some(a)), Passed(r, y, y), "d", x, 0) && w.tick == 7
    requires NeverCalled(w.trace, Call(a, z))
    ensures
      var w' := Attempt(env, CrashAt(0), SlowLoop(r, a), w).1;
      && w'.snap == w'.saved == Iterating(AtDelay("d", 18, 18, Some(a)), Passed(r, y, z), "d", x, 1) && w'.tick == 19
      && NeverCalled(w'.trace, Call(a, z))
  {
    var o, c := CrashAt(0), SlowLoop(r, a);
    WaitIsOver(a, w.saved, Passed(r, y, y), 6, x, 0, w.(snap := w.saved));
    var w2 := ResolveParked(o, w.(snap := w.saved)).1;
    hide ResolveParked, Exec, Attempt, NeverCalled, Passed;
    IterationParks(env, r, a, x, y, v, z, w2);
    var s1 := w2.snap.(state := InProgress(AtTask(a), Passed(r, y, y)[a := v], Some(a)));
    var s2 := Iterating(InLoop("l", 1, Some("d")), map[r := y], a, x, 1);
    var (stop, w4) := Exec(env, o, c, y, w2);
    AttemptWalks(env, c, w, w2, y, stop, w4);
    var e := Called(a, y, false, 13);
    StillNeverCalled(w.trace, [Saved(w2.saved)], e, Call(a, z));
    IterationNeverCalled(w2.trace, s1, s2, e, Call(a, z));
    StillNeverCalled(w2.trace + [e] + [Saved(s1)] + [Saved(s2)], [Saved(w4.saved)], e, Call(a, z));
  }

  lemma LoopBodyStops(env: Env, c: Cont, i: nat, x: Bytes, w: World, s: Stop)
    requires c.Loop? && i < c.maxIterations && Exec(env, CrashAt(0), c.body, x, w).0 == Err(s)
    ensures ExecLoop(env, CrashAt(0), c, i, x, w) == Exec(env, CrashAt(0), c.body, x, w)
  {
  }

  lemma LoopSecondResume(env: Env, r: string, a: string, x: Bytes, y: Bytes, v: Bytes, z: Bytes, w: World)
    requires r !in {"d", "l", a} && a !in {"d", "l"} && y != z
    requires env.task(a, y) == Ok(v) && env.decodeLoop(v) == Ok(("again", z))
    requires w.saved == Iterating(AtDelay("d", 18, 18, Some(a)), Passed(r, y, z), "d", x, 1) && w.tick == 19
    requires NeverCalled(w.trace, Call(a, z))
    ensures
      var w' := Attempt(env, CrashAt(0), SlowLoop(r, a), w).1;
      w'.saved.state == Completed(z) && NeverCalled(w'.trace, Call(a, z))
  {
    var o, c := CrashAt(0), SlowLoop(r, a);
    var l, w1 := c.next.value, w.(snap := w.saved);
    WaitIsOver(a, w.saved, Passed(r, y, z), 18, x, 1, w1);
    var w2 := ResolveParked(o, w1).1;
    hide ResolveParked, Exec, ExecLoop, Attempt, NeverCalled, Passed;
    LoopRestarts(env, r, a, 1, z, y, z, w2);
    IterationRuns(env, r, a, l, 1, y, v, z, z, x, w2.(tick := 23));
    var s1 := w2.snap.(state := InProgress(AtTask(a), Passed(r, y, z)[a := v], Some(a)));
    var s2 := Iterating(InLoop("l", 2, Some("d")), map[r := y], a, x, 2);
    var w3 := World(s2, s2, 29, w2.trace + [Called(a, y, false, 25)] + [Saved(s1)] + [Saved(s2)]);
    LoopEnds(env, l, z, w3);
    var w4 := ExecLoop(env, o, l, 2, z, w3).1;
    AttemptWalks(env, c, w, w2, z, Ok(z), w4);
    var e := Called(a, y, false, 25);
    StillNeverCalled(w.trace, [Saved(w2.saved)], e, Call(a, z));
    IterationNeverCalled(w2.trace, s1, s2, e, Call(a, z));
    StillNeverCalled(w3.trace, [Saved(w4.saved)], e, Call(a, z));
    StillNeverCalled(w4.trace, [Saved(MarkCompleted(w4.snap, z))], e, Call(a, z));
  }

  lemma LoopEnds(env: Env, c: Cont, x: Bytes, w: World)
    requires c.Loop? && c.maxIterations == 2 && c.onMax == ExitWithLast && w.snap.state.InProgress?
    ensures
      var (r, w') := ExecLoop(env, CrashAt(0), c, 2, x, w);
      r == Ok(x) && w'.snap == w'.saved && w'.trace == w.trace + [Saved(w'.saved)]
  {
  }

  /** The semantics feeds each iteration the value of the one before. */
  lemma SlowLoopCalls(env: Env, r: string, a: string, x: Bytes, y: Bytes, v: Bytes, z: Bytes)
    requires env.task(r, x) == Ok(y) && env.task(a, y) == Ok(v) && env.decodeLoop(v) == Ok(("again", z))
    ensures forall done :: Call(a, z) in Eval(env, ByNodeId, done, SlowLoop(r, a), x).calls
  {
    var c := SlowLoop(r, a);
    var l := c.next.value;
    forall done ensures Call(a, z) in Eval(env, ByNodeId, done, c, x).calls {
      BodyCalls(env, a, y, done);
      BodyCalls(env, a, z, done);
      hide Eval;
      assert Call(a, z) in EvalLoop(env, ByNodeId, done, l, 1, z).calls;
      assert Call(a, z) in EvalLoop(env, ByNodeId, done, l, 0, y).calls;
      LoopAfterTask(env, c, x, y, done);
    }
  }

  lemma BodyCalls(env: Env, a: string, x: Bytes, done: Recorded)
    ensures Eval(env, ByNodeId, done, SlowBody(a), x) == Invoke(env, a, x)
  {
    var d, c := SlowBody(a), Leaf(a);
    assert EvalNode(env, ByNodeId, done, c, x) == Invoke(env, a, x);
    assert Eval(env, ByNodeId, done, c, x) == Invoke(env, a, x);
    assert EvalNode(env, ByNodeId, done, d, x) == Run(Done(x), []);
    assert [] + Invoke(env, a, x).calls == Invoke(env, a, x).calls;
  }

  lemma LoopAfterTask(env: Env, c: Cont, x: Bytes, y: Bytes, done: Recorded)
    requires c.Task? && c.next.Some? && c.next.value.Loop? && c.next.value.next.None? && env.task(c.id, x) == Ok(y)
    ensures Eval(env, ByNodeId, done, c, x).calls ==
      [Call(c.id, x)] + EvalLoop(env, ByNodeId, done, c.next.value, 0, y).calls
  {
    var l := c.next.value;
    assert Eval(env, ByNodeId, done, l, y) == EvalNode(env, ByNodeId, done, l, y);
  }

  /**
   A loop that is parked in its second iteration: the resume restarts the loop from its original input,
   and the recorded delay passes that input on. The body's task is called with the value of the first
   iteration again and never with that of the second, which the semantics calls it with, and the workflow
   completes. No crash is needed.
   */
  lemma ResumedLoopForgetsValue(env: Env, r: string, a: string, x: Bytes, y: Bytes, v: Bytes, z: Bytes)
    requires r !in {"d", "l", a} && a !in {"d", "l"} && y != z
    requires env.task(r, x) == Ok(y) && env.task(a, y) == Ok(v) && env.decodeLoop(v) == Ok(("again", z))
    ensures
      var c := SlowLoop(r, a);
      var w := History(env, CrashAt(0), c, x, [Resume, Resume]);
      && Distinct(c) && RootSafe(c) && !LoopFree(c) && !Resumable(c, true)
      && w.saved.state == Completed(z) && NeverCalled(w.trace, Call(a, z))
      && forall done :: Call(a, z) in Eval(env, ByNodeId, done, c, x).calls
  {
    var o, c := CrashAt(0), SlowLoop(r, a);
    hide Distinct, Resumable, LoopFree, Attempt, Eval;
    SlowLoopShape(r, a);
    SlowLoopCalls(env, r, a, x, y, v, z);
    LoopLaunch(env, r, a, x, y, z);
    var w0 := History(env, o, c, x, []);
    var first, both := [Resume], [Resume, Resume];
    assert first[..0] == [] && both[..1] == first;
    var w1 := History(env, o, c, x, first);
    assert w1 == Attempt(env, o, c, w0).1;
    LoopFirstResume(env, r, a, x, y, v, z, w0);
    LoopSecondResume(env, r, a, x, y, v, z, w1);
    assert History(env, o, c, x, both) == Attempt(env, o, c, w1).1;
  }

  // ----- a delay in a fork branch -----

  /** A waiting branch lets the later branches run: they are called before the recorded wake time. */
  lemma ForkIgnoresSiblingDelay(env: Env, b: string, duration: nat, x: Bytes, e: Error)
    requires b != "d" && 2 < Span(duration) && env.task(b, x) == Err(e)
    ensures
      var c := Fork("f", [Delay("d", duration, None)] + [Leaf(b)], None);
      !RespectsDelays(History(env, CrashAt(0), c, x, []).trace)
  {
    var o, d := CrashAt(0), Delay("d", duration, None);
    var c := Fork("f", [d] + [Leaf(b)], None);
    assert c.branches[0] == d && c.branches[1..] == [Leaf(b)] && [Leaf(b)][1..] == [] && FirstTaskId(c) == "d";
    var w0 := Created(c, x);
    var wake := 2 + Span(duration);
    var s1 := Snapshot(InProgress(AtDelay("d", 2, wake, None), map["d" := x], Some("d")), Some(x), map[]);
    assert map[]["d" := x] == map["d" := x];
    var w1 := World(s1, s1, 3, w0.trace + [Saved(s1)]);
    assert ExecNode(env, o, d, x, w0.(tick := 1)) == (Err(Waiting(wake)), w1);
    assert Exec(env, o, d, x, w0.(tick := 1)) == (Err(Waiting(wake)), w1);
    var w2 := w1.(tick := 5, trace := w1.trace + [Called(b, x, false, 4)]);
    assert ExecNode(env, o, Leaf(b), x, w1) == (Err(Raised(e)), w2);
    assert Exec(env, o, Leaf(b), x, w1) == (Err(Raised(e)), w2);
    hide Exec;
    assert ExecBranches(env, o, [Leaf(b)], x, [], Some(wake), w1) == (Err(Raised(e)), w2);
    assert ExecBranches(env, o, c.branches, x, [], None, w0.(tick := 1)) == (Err(Raised(e)), w2);
    ForkNodeFails(env, c, x, w0, Raised(e), w2);
    var w := History(env, o, c, x, []);
    assert w.trace[1] == Saved(s1) && w.trace[2] == Called(b, x, false, 4);
  }

  lemma ForkNodeFails(env: Env, c: Cont, x: Bytes, w: World, s: Stop, w': World)
    requires c.Fork? && w.snap.state.InProgress?
    requires ExecBranches(env, CrashAt(0), c.branches, x, [], None, w.(tick := w.tick + 1)) == (Err(s), w')
    ensures Exec(env, CrashAt(0), c, x, w) == (Err(s), w')
  {
  }

  // ----- one task used twice -----

  lemma EvalTwice(env: Env, c: Cont, d: Cont, x: Bytes, v: Bytes)
    requires c.Task? && c.next == Some(d) && d.Task? && d.next.None? && d.id == c.id && env.task(c.id, x) == Ok(v)
    ensures !Distinct(c) && Eval(env, ByNodeId, map[], c, x) == After([Call(c.id, x)], Invoke(env, c.id, v))
  {
    assert d.id in NodeIds(d) && d.id in Ids(d) && c.id in NodeIds(c);
    assert EvalNode(env, ByNodeId, map[], d, v) == Invoke(env, d.id, v);
    assert Eval(env, ByNodeId, map[], d, v) == Invoke(env, d.id, v);
  }

  /**
   A task id that occurs twice in a chain: the durable executor answers the second occurrence from the
   recorded result of the first, without calling the task. That is right only if the task maps its
   result to itself.
   */
  lemma RepeatedIdRunsOnce(env: Env, a: string, x: Bytes, v: Bytes)
    requires env.task(a, x) == Ok(v)
    ensures
      var c := Task(a, None, NO_META, Some(Leaf(a)));
      var e := Eval(env, ByNodeId, map[], c, x);
      var (r, w) := Exec(env, CrashAt(0), c, x, Created(c, x));
      && !Distinct(c) && Resumable(c, true) && RootSafe(c)
      && r == Ok(v) && CallsOf(w.trace) == [Call(a, x)]
      && e.calls == [Call(a, x), Call(a, v)] && (e.out == Done(v) <==> env.task(a, v) == Ok(v))
  {
    var c := Task(a, None, NO_META, Some(Leaf(a)));
    LeafShape(a);
    assert Resumable(c, true);
    hide Exec, Eval, Distinct, CallsOf;
    EvalTwice(env, c, Leaf(a), x, v);
    ExecOnce(env, a, x, v);
  }

  lemma ExecOnce(env: Env, a: string, x: Bytes, v: Bytes)
    requires env.task(a, x) == Ok(v)
    ensures
      var c := Task(a, None, NO_META, Some(Leaf(a)));
      var (r, w) := Exec(env, CrashAt(0), c, x, Created(c, x));
      r == Ok(v) && CallsOf(w.trace) == [Call(a, x)]
  {
    var o, c := CrashAt(0), Task(a, None, NO_META, Some(Leaf(a)));
    var w0 := Created(c, x);
    assert FirstTaskId(Leaf(a)) == a && map[][a := v] == map[a := v];
    TaskRuns(env, 0, c, x, w0, v);
    var s := Snapshot(InProgress(AtTask(a), map[a := v], Some(a)), Some(x), map[]);
    var w1 := World(s, s, 4, w0.trace + [Called(a, x, false, 1)] + [Saved(s)]);
    TaskReused(env, 0, Leaf(a), v, w1);
    hide ExecNode, FirstTaskId;
    assert ExecNode(env, o, c, x, w0) == (Ok(v), w1);
    assert Exec(env, o, Leaf(a), v, w1) == (Ok(v), w1.(tick := 5));
    assert Exec(env, o, c, x, w0) == (Ok(v), w1.(tick := 5));
    hide Exec;
    OneCall(w0.trace[0], Called(a, x, false, 1), Saved(s));
    assert w0.trace == [w0.trace[0]];
  }

  lemma OneCall(s: Event, e: Event, s': Event)
    requires s.Saved? && e.Called? && s'.Saved?
    ensures CallsOf([s] + [e] + [s']) == [Call(e.id, e.input)]
  {
    assert CallsOf([]) == [] && [] + [s] == [s];
    CallsOfSnoc([], s);
    CallsOfSnoc([s], e);
    CallsOfSnoc([s] + [e], s');
  }
}
