/** An uninterrupted durable run computes the reference semantics, although it looks results up by id. */
module DurableFresh {
  import opened Prelude
  import opened Continuation
  import opened Semantics
  import opened Snapshots
  import opened Durable

  /** Guards pass, saves succeed and calls return. */
  ghost predicate Calm(o: Oracle) {
    && (forall t: nat :: o.guard(t) == Pass)
    && (forall t: nat :: o.save(t) == Works)
    && (forall t: nat :: o.call(t) == Returns)
  }

  /** Nothing in the tree parks: there is no delay, and every awaited signal has been sent. */
  ghost predicate Ready(o: Oracle, signals: map<string, Bytes>, c: Cont)
    decreases c, 1
  {
    ReadyNode(o, signals, c) && (Next(c).Some? ==> Ready(o, signals, Next(c).value))
  }

  ghost predicate ReadyNode(o: Oracle, signals: map<string, Bytes>, c: Cont)
    decreases c, 0
  {
    match c
    case Task(_, _, _, _) => true
    case Delay(_, _, _) => false
    case AwaitSignal(id, name, _, _) => id in signals && forall t: nat :: o.mail(t, name) == Delivered(signals[id])
    case Fork(_, branches, _) => forall b :: b in branches ==> Ready(o, signals, b)
    case Branch(_, _, routes, default, _) =>
      && (forall k :: k in routes ==> Ready(o, signals, routes[k]))
      && (default.Some? ==> Ready(o, signals, default.value))
    case Loop(_, body, _, _, _) => Ready(o, signals, body)
    case ChildWorkflow(_, child, _) => Ready(o, signals, child)
  }

  /**
   The ids that serve as cache keys do not clash. Alternative routes of a branch may share ids, and a
   fork's own id may repeat one inside it unless the fork is itself a branch of a fork.
   */
  predicate Distinct(c: Cont)
    decreases c, 1
  {
    DistinctNode(c) && (Next(c).Some? ==> Distinct(Next(c).value) && NodeIds(c) !! Ids(Next(c).value))
  }

  predicate DistinctNode(c: Cont)
    decreases c, 0
  {
    match c
    case Fork(_, branches, _) => DistinctBranches(branches)
    case Branch(id, _, routes, default, _) =>
      && (forall k :: k in routes ==> Distinct(routes[k]) && id !in Ids(routes[k]))
      && (default.Some? ==> Distinct(default.value) && id !in Ids(default.value))
    case Loop(id, body, _, _, _) => Distinct(body) && id !in Ids(body)
    case ChildWorkflow(id, child, _) => Distinct(child) && id !in Ids(child)
    case _ => true
  }

  predicate DistinctBranches(branches: seq<Cont>)
    decreases branches, 2
  {
    branches == [] ||
    (&& Distinct(branches[0])
     && (branches[0].Fork? ==> branches[0].id !in BranchIds(branches[0].branches))
     && Ids(branches[0]) !! BranchIds(branches[1..])
     && DistinctBranches(branches[1..]))
  }

  /** The calls in a history, in order. */
  function CallsOf(trace: seq<Event>): seq<Call> {
    if trace == [] then [] else
    var n := |trace| - 1;
    CallsOf(trace[..n]) + if trace[n].Called? then [Call(trace[n].id, trace[n].input)] else []
  }

  lemma CallsOfSnoc(trace: seq<Event>, e: Event)
    ensures CallsOf(trace + [e]) == CallsOf(trace) + if e.Called? then [Call(e.id, e.input)] else []
  {
    assert (trace + [e])[..|trace|] == trace;
  }

  /** The run from `w` to `w'` made exactly `calls` and touched only results under `ids`. */
  ghost predicate Did(w: World, w': World, ids: set<string>, calls: seq<Call>) {
    && w.snap.state.InProgress? && w'.snap.state.InProgress?
    && (forall k :: k !in ids ==> TaskResult(w'.snap, k) == TaskResult(w.snap, k))
    && CallsOf(w'.trace) == CallsOf(w.trace) + calls
  }

  lemma DidThen(
      w: World, w1: World, w2: World, ids1: set<string>, ids2: set<string>, ids: set<string>, a: seq<Call>,
      b: seq<Call>)
    requires Did(w, w1, ids1, a) && Did(w1, w2, ids2, b) && ids1 <= ids && ids2 <= ids
    ensures Did(w, w2, ids, a + b)
  {
    assert CallsOf(w.trace) + (a + b) == (CallsOf(w.trace) + a) + b;
  }

  /** None of `c`'s ids has a result or an iteration count yet. */
  ghost predicate Untouched(ids: set<string>, w: World) {
    && w.snap.state.InProgress?
    && (forall k :: k in ids ==> TaskResult(w.snap, k).None? && k !in w.snap.loops)
  }

  /** The result of a walk is the outcome `e`. */
  ghost predicate Yields(r: ExecResult, e: Outcome) {
    match e
    case Done(v) => r == Ok(v)
    case Failed(err) => r == Err(Raised(err))
    case Blocked(_) => false
  }

  /**
   From untouched ids the walk makes the calls and returns the result of the reference semantics.
   A finished walk leaves the iteration counts as they were.
   */
  lemma {:induction false} FreshRun(env: Env, o: Oracle, signals: map<string, Bytes>, c: Cont, x: Bytes, w: World)
    requires Calm(o) && Honest(env, o) && Ready(o, signals, c) && Distinct(c) && Untouched(Ids(c), w)
    ensures
      var e := Eval(env, ByNodeId, signals, c, x);
      var (r, w') := Exec(env, o, c, x, w);
      && Yields(r, e.out)
      && Did(w, w', Ids(c), e.calls)
      && (r.Ok? ==> w'.snap.loops == w.snap.loops)
    decreases c, 2
  {
    hide ExecNode, EvalNode, NodeIds, DistinctNode, ReadyNode, CallsOf, Honest, Calm;
    FreshNode(env, o, signals, c, x, w);
    var (r, w1) := ExecNode(env, o, c, x, w);
    var e := EvalNode(env, ByNodeId, signals, c, x);
    if r.Ok? && Next(c).Some? {
      var n := Next(c).value;
      FreshRun(env, o, signals, n, r.value, w1);
      DidThen(w, w1, Exec(env, o, n, r.value, w1).1, NodeIds(c), Ids(n), Ids(c), e.calls,
        Eval(env, ByNodeId, signals, n, r.value).calls);
    }
  }

  lemma {:induction false} FreshNode(env: Env, o: Oracle, signals: map<string, Bytes>, c: Cont, x: Bytes, w: World)
    requires Calm(o) && Honest(env, o) && ReadyNode(o, signals, c) && DistinctNode(c) && Untouched(NodeIds(c), w)
    ensures
      var e := EvalNode(env, ByNodeId, signals, c, x);
      var (r, w') := ExecNode(env, o, c, x, w);
      && Yields(r, e.out)
      && Did(w, w', NodeIds(c), e.calls)
      && (r.Ok? ==> w'.snap.loops == w.snap.loops)
    decreases c, 1
  {
    hide Exec, Eval, CallsOf, Honest, Distinct, Ready, FirstTaskId;
    match c
    case Task(_, _, _, _) => FreshTask(env, o, c, x, w);
    case AwaitSignal(_, _, _, _) => FreshSignal(env, o, signals, c, x, w);
    case Fork(_, _, _) => FreshFork(env, o, signals, c, x, w);
    case Branch(_, _, _, _, _) => FreshBranch(env, o, signals, c, x, w);
    case Loop(_, _, _, _, _) => FreshLoop(env, o, signals, c, 0, x, w.(tick := w.tick + 1));
    case ChildWorkflow(_, _, _) => FreshChild(env, o, signals, c, x, w);
    case Delay(_, _, _) => assert false;
  }

  lemma {:induction false} FreshChild(env: Env, o: Oracle, signals: map<string, Bytes>, c: Cont, x: Bytes, w: World)
    requires Calm(o) && Honest(env, o) && c.ChildWorkflow? && ReadyNode(o, signals, c) && DistinctNode(c)
    requires Untouched(NodeIds(c), w)
    ensures
      var e := EvalNode(env, ByNodeId, signals, c, x);
      var (r, w') := ExecNode(env, o, c, x, w);
      Yields(r, e.out) && Did(w, w', NodeIds(c), e.calls) && (r.Ok? ==> w'.snap.loops == w.snap.loops)
    decreases c, 0
  {
    hide Exec, Eval, CallsOf, Honest, Distinct, Ready, Record, Ids;
    var w1 := w.(tick := w.tick + 1);
    FreshRun(env, o, signals, c.child, x, w1);
    var (r, w2) := Exec(env, o, c.child, x, w1);
    if r.Ok? {
      FreshRecord(o, c.id, r.value, w2);
      var e := Eval(env, ByNodeId, signals, c.child, x).calls;
      DidThen(w1, w2, Record(o, c.id, r.value, w2).1, Ids(c.child), {c.id}, NodeIds(c), e, []);
      assert e + [] == e;
    }
  }

  lemma {:induction false} FreshFork(env: Env, o: Oracle, signals: map<string, Bytes>, c: Cont, x: Bytes, w: World)
    requires Calm(o) && Honest(env, o) && c.Fork? && ReadyNode(o, signals, c) && DistinctNode(c)
    requires Untouched(NodeIds(c), w)
    ensures
      var e := EvalNode(env, ByNodeId, signals, c, x);
      var (r, w') := ExecNode(env, o, c, x, w);
      Yields(r, e.out) && Did(w, w', NodeIds(c), e.calls) && (r.Ok? ==> w'.snap.loops == w.snap.loops)
    decreases c, 0
  {
    FreshBranches(env, o, signals, c.branches, x, [], w.(tick := w.tick + 1));
    var g := EvalBranches(env, ByNodeId, signals, c.branches, x);
    assert [] + g.results == g.results;
  }

  lemma FreshRecord(o: Oracle, id: string, v: Bytes, w: World)
    requires Calm(o) && w.snap.state.InProgress?
    ensures var (r, w') := Record(o, id, v, w);
      r == Ok(v) && Did(w, w', {id}, []) && w'.snap.loops == w.snap.loops && TaskResult(w'.snap, id) == Some(v)
  {
    CallsOfSnoc(w.trace, Saved(MarkTaskCompleted(w.snap, id, v)));
  }

  lemma FreshTask(env: Env, o: Oracle, c: Cont, x: Bytes, w: World)
    requires Calm(o) && c.Task? && w.snap.state.InProgress? && TaskResult(w.snap, c.id).None?
    ensures
      var e := Invoke(env, c.id, x);
      var (r, w') := ExecTask(env, o, c, x, w);
      Yields(r, e.out) && Did(w, w', {c.id}, e.calls) && w'.snap.loops == w.snap.loops
  {
    hide CallsOf, FirstTaskId;
    var call := Called(c.id, x, false, o.clock(w.tick + 1));
    CallsOfSnoc(w.trace, call);
    var v := env.task(c.id, x);
    if v.Ok? {
      var snap := MarkTaskCompleted(w.snap, c.id, v.value);
      var snap' := if c.next.Some? then UpdatePosition(snap, AtTask(FirstTaskId(c.next.value))) else snap;
      CallsOfSnoc(w.trace + [call], Saved(snap'));
    }
  }

  lemma FreshSignal(env: Env, o: Oracle, signals: map<string, Bytes>, c: Cont, x: Bytes, w: World)
    requires Calm(o) && Honest(env, o) && c.AwaitSignal? && ReadyNode(o, signals, c) && w.snap.state.InProgress?
    requires TaskResult(w.snap, c.id).None?
    ensures
      var (r, w') := ExecSignal(o, c, w);
      && r == Ok(signals[c.id]) && Did(w, w', {c.id}, []) && w'.snap.loops == w.snap.loops
      && env.admits(c.signalName, signals[c.id])
  {
    assert o.mail(0, c.signalName) == Delivered(signals[c.id]);
    var snap := MarkTaskCompleted(w.snap, c.id, signals[c.id]);
    var snap' := if c.next.Some? then UpdatePosition(snap, AtTask(FirstTaskId(c.next.value))) else snap;
    CallsOfSnoc(w.trace, Saved(snap'));
  }

  lemma {:induction false} FreshBranch(env: Env, o: Oracle, signals: map<string, Bytes>, c: Cont, x: Bytes, w: World)
    requires Calm(o) && Honest(env, o) && c.Branch? && ReadyNode(o, signals, c) && DistinctNode(c)
    requires Untouched(NodeIds(c), w)
    ensures
      var e := EvalNode(env, ByNodeId, signals, c, x);
      var (r, w') := ExecNode(env, o, c, x, w);
      Yields(r, e.out) && Did(w, w', NodeIds(c), e.calls) && (r.Ok? ==> w'.snap.loops == w.snap.loops)
    decreases c, 0
  {
    hide Exec, Eval, CallsOf, CallTask, FinishBranch, Honest, Distinct, Ready;
    var w1 := w.(tick := w.tick + 1);
    var kid := KeyFnId(c.id);
    var call := [Call(kid, x)];
    var (k, w2) := CallTask(env, o, kid, x, true, w1);
    FreshKey(env, o, kid, x, w, w1);
    if k.Ok? && Choose(env, c, k.value).Ok? {
      var (key, route) := Choose(env, c, k.value).value;
      assert Ids(route) <= NodeIds(c);
      FreshRun(env, o, signals, route, x, w2);
      var (r, w3) := Exec(env, o, route, x, w2);
      var e := Eval(env, ByNodeId, signals, route, x);
      DidThen(w, w2, w3, {}, Ids(route), NodeIds(c), call, e.calls);
      FreshFinish(env, o, c.id, key, r, e, w3);
      DidThen(w, w3, FinishBranch(env, o, c.id, key, r, w3).1, NodeIds(c), {c.id}, NodeIds(c), call + e.calls, []);
      assert call + e.calls + [] == call + e.calls;
    }
  }

  lemma FreshKey(env: Env, o: Oracle, kid: string, x: Bytes, w: World, w1: World)
    requires Calm(o) && w.snap.state.InProgress? && w1 == w.(tick := w.tick + 1)
    ensures var (k, w2) := CallTask(env, o, kid, x, true, w1);
      Yields(k, Invoke(env, kid, x).out) && Did(w, w2, {}, [Call(kid, x)]) && w2.snap == w.snap
  {
    CallsOfSnoc(w.trace, Called(kid, x, true, o.clock(w1.tick)));
  }

  lemma FreshFinish(env: Env, o: Oracle, id: string, key: string, r: ExecResult, e: Run, w: World)
    requires Calm(o) && w.snap.state.InProgress? && Yields(r, e.out)
    ensures var (f, w') := FinishBranch(env, o, id, key, r, w);
      Yields(f, Wrapped(env, key, e).out) && Did(w, w', {id}, []) && w'.snap.loops == w.snap.loops
  {
    assert CallsOf(w.trace) + [] == CallsOf(w.trace);
    if r.Ok? && env.encodeEnvelope(key, r.value).Ok? {
      FreshRecord(o, id, env.encodeEnvelope(key, r.value).value, w);
    }
  }

  /** A finished branch is recorded under its id and leaves the other branches untouched. */
  lemma FreshBranchDone(o: Oracle, b: Cont, rest: seq<Cont>, v: Bytes, w: World, w1: World, calls: seq<Call>)
    requires Calm(o) && Did(w, w1, Ids(b), calls) && w1.snap.loops == w.snap.loops
    requires Ids(b) !! BranchIds(rest) && Untouched(BranchIds(rest), w)
    ensures var (r, w2) := Record(o, b.id, v, w1);
      r == Ok(v) && Did(w, w2, Ids(b), calls) && w2.snap.loops == w.snap.loops && Untouched(BranchIds(rest), w2)
  {
    FreshRecord(o, b.id, v, w1);
    var w2 := Record(o, b.id, v, w1).1;
    assert b.id in Ids(b);
    DidThen(w, w1, w2, Ids(b), {b.id}, Ids(b), calls, []);
    assert calls + [] == calls;
  }

  lemma {:induction false} FreshBranches(
      env: Env, o: Oracle, signals: map<string, Bytes>,
      branches: seq<Cont>, x: Bytes, acc: seq<(string, Bytes)>, w: World)
    requires Calm(o) && Honest(env, o) && DistinctBranches(branches) && Untouched(BranchIds(branches), w)
    requires forall b :: b in branches ==> Ready(o, signals, b)
    ensures
      var g := EvalBranches(env, ByNodeId, signals, branches, x);
      var (r, w') := ExecBranches(env, o, branches, x, acc, None, w);
      && Did(w, w', BranchIds(branches), g.calls)
      && (g.stop.None? ==> r == Ok((acc + g.results, None)) && w'.snap.loops == w.snap.loops)
      && (g.stop.Some? ==> g.stop.value.Failed? && r == Err(Raised(g.stop.value.error)))
    decreases branches, 3
  {
    hide Exec, Eval, CallsOf, Record, Honest, Distinct, Ready, Calm;
    if branches == [] {
      assert acc + [] == acc;
      assert CallsOf(w.trace) + [] == CallsOf(w.trace);
    } else {
      var b := branches[0];
      assert b.id in Ids(b);
      FreshRun(env, o, signals, b, x, w);
      var (r, w1) := Exec(env, o, b, x, w);
      var e := Eval(env, ByNodeId, signals, b, x);
      if r.Ok? {
        var w2 := Record(o, b.id, r.value, w1).1;
        FreshBranchDone(o, b, branches[1..], r.value, w, w1, e.calls);
        var acc' := acc + [(b.id, r.value)];
        FreshBranches(env, o, signals, branches[1..], x, acc', w2);
        var g := EvalBranches(env, ByNodeId, signals, branches[1..], x);
        assert acc' + g.results == acc + ([(b.id, r.value)] + g.results);
        var w3 := ExecBranches(env, o, branches[1..], x, acc', None, w2).1;
        DidThen(w, w2, w3, Ids(b), BranchIds(branches[1..]), BranchIds(branches), e.calls, g.calls);
      }
    }
  }

  /** After its results have been dropped, a loop body can run afresh. */
  lemma FreshClear(c: Cont, w: World, w1: World, calls: seq<Call>)
    requires c.Loop? && Untouched(Ids(c.body), w) && Did(w, w1, Ids(c.body), calls) && w1.snap.loops == w.snap.loops
    ensures var w2 := w1.(snap := RemoveTaskResults(w1.snap, Ids(c.body)));
      Did(w, w2, Ids(c.body), calls) && Untouched(Ids(c.body), w2) && w2.snap.loops == w.snap.loops
  {
  }

  lemma FreshIteration(o: Oracle, c: Cont, i: nat, w: World, w2: World, calls: seq<Call>)
    requires Calm(o) && c.Loop? && DistinctNode(c) && Did(w, w2, Ids(c.body), calls) && Untouched(Ids(c.body), w2)
    ensures var (s, w3) := NextIteration(o, c, i, w2);
      && s.None? && Did(w, w3, Ids(c.body), calls)
      && w3.snap.loops == w2.snap.loops[c.id := i] && Untouched(Ids(c.body), w3)
  {
    var snap := UpdatePosition(SetLoopIteration(w2.snap, c.id, i), InLoop(c.id, i, Some(FirstTaskId(c.body))));
    CallsOfSnoc(w2.trace, Saved(snap));
  }

  lemma {:induction false} FreshLoop(
      env: Env, o: Oracle, signals: map<string, Bytes>, c: Cont, i: nat, x: Bytes, w: World)
    requires Calm(o) && Honest(env, o) && c.Loop? && Ready(o, signals, c.body) && DistinctNode(c)
    requires Untouched(Ids(c.body), w)
    ensures
      var e := EvalLoop(env, ByNodeId, signals, c, i, x);
      var (r, w') := ExecLoop(env, o, c, i, x, w);
      && Yields(r, e.out)
      && Did(w, w', NodeIds(c), e.calls)
      && (r.Ok? ==> w'.snap.loops == w.snap.loops - {c.id})
    decreases c, 0, c.maxIterations - i, 1
  {
    hide CallsOf, Honest, Distinct, Ready, FirstTaskId;
    if i >= c.maxIterations {
      FreshExit(o, c, x, w);
    } else {
      FreshRun(env, o, signals, c.body, x, w);
      var (r, w1) := Exec(env, o, c.body, x, w);
      var e := Eval(env, ByNodeId, signals, c.body, x);
      if r.Ok? {
        FreshClear(c, w, w1, e.calls);
        var w2 := w1.(snap := RemoveTaskResults(w1.snap, Ids(c.body)));
        var d := env.decodeLoop(r.value);
        if d.Ok? && d.value.0 == "done" {
          FreshDone(o, c, d.value.1, w, w2, e.calls);
        } else if d.Ok? && d.value.0 == "again" {
          FreshAgain(env, o, signals, c, i, d.value.1, w, w2, e.calls);
        }
      }
    }
  }

  lemma {:induction false} FreshAgain(env: Env, o: Oracle, signals: map<string, Bytes>, c: Cont, i: nat, v: Bytes,
                                      w: World, w2: World, calls: seq<Call>)
    requires Calm(o) && Honest(env, o) && c.Loop? && Ready(o, signals, c.body) && DistinctNode(c) && i < c.maxIterations
    requires Did(w, w2, Ids(c.body), calls) && Untouched(Ids(c.body), w2) && w2.snap.loops == w.snap.loops
    ensures
      var (s, w3) := NextIteration(o, c, i + 1, w2);
      var e := After(calls, EvalLoop(env, ByNodeId, signals, c, i + 1, v));
      var (r, w') := ExecLoop(env, o, c, i + 1, v, w3);
      && s.None? && Yields(r, e.out) && Did(w, w', NodeIds(c), e.calls)
      && (r.Ok? ==> w'.snap.loops == w.snap.loops - {c.id})
    decreases c, 0, c.maxIterations - i, 0
  {
    hide CallsOf, Honest, Distinct, Ready, FirstTaskId;
    FreshIteration(o, c, i + 1, w, w2, calls);
    var w3 := NextIteration(o, c, i + 1, w2).1;
    FreshLoop(env, o, signals, c, i + 1, v, w3);
    var e := EvalLoop(env, ByNodeId, signals, c, i + 1, v);
    DidThen(w, w3, ExecLoop(env, o, c, i + 1, v, w3).1, Ids(c.body), NodeIds(c), NodeIds(c), calls, e.calls);
    assert w3.snap.loops - {c.id} == w.snap.loops - {c.id};
  }

  /** A loop that has used up its iterations. */
  lemma FreshExit(o: Oracle, c: Cont, x: Bytes, w: World)
    requires Calm(o) && c.Loop? && w.snap.state.InProgress?
    ensures
      var (r, w') := Record(o, c.id, x, w.(snap := ClearLoopIteration(w.snap, c.id)));
      r == Ok(x) && Did(w, w', NodeIds(c), []) && Did(w, w, NodeIds(c), []) && w'.snap.loops == w.snap.loops - {c.id}
  {
    assert CallsOf(w.trace) + [] == CallsOf(w.trace);
    assert Did(w, w, {}, []);
    FreshDone(o, c, x, w, w, []);
  }

  lemma FreshDone(o: Oracle, c: Cont, v: Bytes, w: World, w2: World, calls: seq<Call>)
    requires Calm(o) && c.Loop? && Did(w, w2, Ids(c.body), calls)
    ensures
      var (r, w') := Record(o, c.id, v, w2.(snap := ClearLoopIteration(w2.snap, c.id)));
      r == Ok(v) && Did(w, w', NodeIds(c), calls) && w'.snap.loops == w2.snap.loops - {c.id}
  {
    var w3 := w2.(snap := ClearLoopIteration(w2.snap, c.id));
    FreshRecord(o, c.id, v, w3);
    DidThen(w, w2, Record(o, c.id, v, w3).1, Ids(c.body), {c.id}, NodeIds(c), calls, []);
    assert calls + [] == calls;
  }
}
