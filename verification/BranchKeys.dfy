/** Which node makes which call: every branch node has a key function of its own. */
module BranchKeys {
  import opened Prelude
  import opened Continuation
  import opened Semantics
  import opened Durable
  import opened DurableFresh
  import opened Plan
  import opened PlanCorrectness
  import opened Agreement
  import opened NoRepeat
  import opened Parts

  /** A key function's name is the branch id followed by eight characters. */
  lemma KeyFnIdExact(id: string)
    ensures |KeyFnId(id)| == |id| + 8 && KeyFnId(id)[..|id|] == id && KeyFnId(id)[|id|..] == "::key_fn"
    ensures KeyFnId(id) != id
  {
  }

  /** Different branch nodes have different key functions. */
  lemma KeyFnIdInjective(a: string, b: string)
    requires KeyFnId(a) == KeyFnId(b)
    ensures a == b
  {
    KeyFnIdExact(a);
    KeyFnIdExact(b);
  }

  /** No id is the name of the key function of another one. */
  ghost predicate Apart(ids: set<string>) {
    forall i :: i in ids ==> KeyFnId(i) !in ids
  }

  // ----- who makes a call -----

  /** The node calls this name: a task its own id, a branch node its key function. */
  predicate Calls(n: Cont, name: string) {
    (n.Task? && name == n.id) || (n.Branch? && name == KeyFnId(n.id))
  }

  /** The call comes from a node of the tree. */
  ghost predicate HasCaller(c: Cont, call: Call) {
    exists n :: Inside(n, c) && Calls(n, call.id)
  }

  lemma CallerInside(b: Cont, c: Cont, call: Call)
    requires HasCaller(b, call) && Inside(b, c)
    ensures HasCaller(c, call)
  {
    var n :| Inside(n, b) && Calls(n, call.id);
    InsideTrans(n, b, c);
  }

  /** Every call of an evaluation, loops included, is made by a node of the tree. */
  lemma {:induction false} EveryCallHasCaller(
      env: Env, labels: Labels, signals: map<string, Bytes>, c: Cont, x: Bytes, call: Call)
    requires call in Eval(env, labels, signals, c, x).calls
    ensures HasCaller(c, call)
    decreases c, 2
  {
    var r := EvalNode(env, labels, signals, c, x);
    if call in r.calls {
      NodeHasCaller(env, labels, signals, c, x, call);
    } else {
      var n := Next(c).value;
      EveryCallHasCaller(env, labels, signals, n, r.out.value, call);
      assert Inside(n, n);
      CallerInside(n, c, call);
    }
  }

  lemma {:induction false} NodeHasCaller(
      env: Env, labels: Labels, signals: map<string, Bytes>, c: Cont, x: Bytes, call: Call)
    requires call in EvalNode(env, labels, signals, c, x).calls
    ensures HasCaller(c, call)
    decreases c, 1
  {
    assert Inside(c, c);
    match c
    case Task(_, _, _, _) => assert Calls(c, call.id);
    case Fork(_, branches, _) =>
      var b := BranchHasCaller(env, labels, signals, branches, x, call);
      CallerInside(b, c, call);
    case Branch(id, _, _, _, _) =>
      if call == Call(KeyFnId(id), x) {
        assert Calls(c, call.id);
      } else {
        var route := Choose(env, c, Invoke(env, KeyFnId(id), x).out.value).value.1;
        EveryCallHasCaller(env, labels, signals, route, x, call);
        assert Inside(route, route);
        CallerInside(route, c, call);
      }
    case Loop(_, body, _, _, _) =>
      LoopHasCaller(env, labels, signals, c, 0, x, call);
      assert Inside(body, body);
      CallerInside(body, c, call);
    case ChildWorkflow(_, child, _) =>
      EveryCallHasCaller(env, labels, signals, child, x, call);
      assert Inside(child, child);
      CallerInside(child, c, call);
  }

  lemma {:induction false} BranchHasCaller(
      env: Env, labels: Labels, signals: map<string, Bytes>, branches: seq<Cont>, x: Bytes, call: Call)
      returns (b: Cont)
    requires call in EvalBranches(env, labels, signals, branches, x).calls
    ensures b in branches && HasCaller(b, call) && Inside(b, b)
    decreases branches, 3
  {
    if call in Eval(env, labels, signals, branches[0], x).calls {
      b := branches[0];
      EveryCallHasCaller(env, labels, signals, b, x, call);
    } else {
      b := BranchHasCaller(env, labels, signals, branches[1..], x, call);
    }
  }

  lemma {:induction false} LoopHasCaller(
      env: Env, labels: Labels, signals: map<string, Bytes>, c: Cont, i: nat, x: Bytes, call: Call)
    requires c.Loop? && call in EvalLoop(env, labels, signals, c, i, x).calls
    ensures HasCaller(c.body, call)
    decreases c, 0, c.maxIterations - i
  {
    var r := Eval(env, labels, signals, c.body, x);
    if call in r.calls {
      EveryCallHasCaller(env, labels, signals, c.body, x, call);
    } else {
      LoopHasCaller(env, labels, signals, c, i + 1, env.decodeLoop(r.out.value).value.1, call);
    }
  }

  /** A name tells which node of the tree called it, by its id and kind. */
  lemma OneCaller(c: Cont, m: Cont, n: Cont, name: string)
    requires Apart(Ids(c)) && Inside(m, c) && Inside(n, c) && Calls(m, name) && Calls(n, name)
    ensures m.id == n.id && (m.Branch? <==> n.Branch?)
  {
    InsideIds(m, c);
    InsideIds(n, c);
    if m.Branch? && n.Branch? {
      KeyFnIdInjective(m.id, n.id);
    }
  }

  // ----- no name is called twice -----

  /** The names nodes with these ids may call. */
  function Callable(ids: set<string>): set<string> {
    ids + set i | i in ids :: KeyFnId(i)
  }

  lemma CallableApart(a: set<string>, b: set<string>)
    requires a !! b && Apart(a + b)
    ensures Callable(a) !! Callable(b)
  {
    forall i, j | i in a && j in b ensures KeyFnId(i) != KeyFnId(j) {
      if KeyFnId(i) == KeyFnId(j) {
        KeyFnIdInjective(i, j);
      }
    }
  }

  ghost predicate NoneTwice(calls: seq<Call>) {
    forall i, j :: 0 <= i < j < |calls| ==> calls[i].id != calls[j].id
  }

  /** No name occurs twice, and all are callable by nodes with these ids. */
  ghost predicate Within(calls: seq<Call>, ids: set<string>) {
    NoneTwice(calls) && forall call :: call in calls ==> call.id in Callable(ids)
  }

  lemma WithinBoth(a: seq<Call>, ids: set<string>, b: seq<Call>, ids': set<string>, all: set<string>)
    requires Within(a, ids) && Within(b, ids') && ids !! ids' && ids + ids' <= all && Apart(all)
    ensures Within(a + b, all)
  {
    assert Apart(ids + ids');
    CallableApart(ids, ids');
    forall i, j | 0 <= i < |a| && 0 <= j < |b| ensures a[i].id != b[j].id {
      assert a[i] in a && b[j] in b;
    }
  }

  lemma WithinMore(a: seq<Call>, ids: set<string>, all: set<string>)
    requires Within(a, ids) && ids <= all
    ensures Within(a, all)
  {
  }

  /** In a tree without loops or clashing ids, no task and no key function is called twice. */
  lemma {:induction false} EvalWithin(
      env: Env, labels: Labels, signals: map<string, Bytes>, c: Cont, x: Bytes)
    requires Distinct(c) && LoopFree(c) && Apart(Ids(c))
    ensures Within(Eval(env, labels, signals, c, x).calls, Ids(c))
    decreases c, 2
  {
    hide EvalNode, NodeIds, DistinctNode, LoopFreeNode, Within;
    assert Apart(NodeIds(c));
    NodeWithin(env, labels, signals, c, x);
    var r := EvalNode(env, labels, signals, c, x);
    WithinMore(r.calls, NodeIds(c), Ids(c));
    if r.out.Done? && Next(c).Some? {
      var n := Next(c).value;
      assert Apart(Ids(n));
      EvalWithin(env, labels, signals, n, r.out.value);
      var calls := Eval(env, labels, signals, n, r.out.value).calls;
      WithinBoth(r.calls, NodeIds(c), calls, Ids(n), Ids(c));
    }
  }

  lemma {:induction false} NodeWithin(
      env: Env, labels: Labels, signals: map<string, Bytes>, c: Cont, x: Bytes)
    requires DistinctNode(c) && LoopFreeNode(c) && Apart(NodeIds(c))
    ensures Within(EvalNode(env, labels, signals, c, x).calls, NodeIds(c))
    decreases c, 1
  {
    hide Eval, EvalBranches, Distinct, DistinctBranches, LoopFree;
    match c
    case Fork(_, branches, _) =>
      assert Apart(BranchIds(branches));
      BranchesWithin(env, labels, signals, branches, x);
      WithinMore(EvalBranches(env, labels, signals, branches, x).calls, BranchIds(branches), NodeIds(c));
    case Branch(id, _, _, _, _) =>
      var k := Invoke(env, KeyFnId(id), x);
      assert Within(k.calls, {id});
      WithinMore(k.calls, {id}, NodeIds(c));
      if k.out.Done? && Choose(env, c, k.out.value).Ok? {
        var (key, route) := Choose(env, c, k.out.value).value;
        RouteIds(c, key);
        assert Apart(Ids(route));
        EvalWithin(env, labels, signals, route, x);
        WithinBoth(k.calls, {id}, Eval(env, labels, signals, route, x).calls, Ids(route), NodeIds(c));
      }
    case ChildWorkflow(_, child, _) =>
      assert Apart(Ids(child));
      EvalWithin(env, labels, signals, child, x);
      WithinMore(Eval(env, labels, signals, child, x).calls, Ids(child), NodeIds(c));
    case _ =>
  }

  lemma {:induction false} BranchesWithin(
      env: Env, labels: Labels, signals: map<string, Bytes>, branches: seq<Cont>, x: Bytes)
    requires DistinctBranches(branches) && (forall b :: b in branches ==> LoopFree(b)) && Apart(BranchIds(branches))
    ensures Within(EvalBranches(env, labels, signals, branches, x).calls, BranchIds(branches))
    decreases branches, 3
  {
    hide Eval, Distinct, LoopFree, Ids;
    if branches != [] {
      var b, rest := branches[0], branches[1..];
      assert Apart(Ids(b)) && Apart(BranchIds(rest));
      EvalWithin(env, labels, signals, b, x);
      BranchesWithin(env, labels, signals, rest, x);
      var r, g := Eval(env, labels, signals, b, x), EvalBranches(env, labels, signals, rest, x);
      WithinMore(r.calls, Ids(b), BranchIds(branches));
      WithinBoth(r.calls, Ids(b), g.calls, BranchIds(rest), BranchIds(branches));
    }
  }

  /**
   Every branch node is routed by its own key function, on both engines: no name is called twice, so the
   key calls of different branch nodes have different names; with loops, still every call has one caller.
   */
  lemma OwnKeyFunctions(env: Env, labels: Labels, signals: map<string, Bytes>, c: Cont, x: Bytes)
    requires Distinct(c) && Apart(Ids(c))
    ensures LoopFree(c) ==> NoneTwice(Eval(env, labels, signals, c, x).calls)
    ensures Flatten(c).Some? && Steppable(c, false) && LoopFree(c) ==>
      NoneTwice(RunPlan(env, Start(Flatten(c).value, x)).calls)
    ensures Flatten(c).Some? && Steppable(c, false) ==>
      forall call :: call in RunPlan(env, Start(Flatten(c).value, x)).calls ==> HasCaller(c, call)
  {
    hide Eval, RunPlan, Flatten, Distinct, Steppable, LoopFree, Ids;
    if LoopFree(c) {
      EvalWithin(env, labels, signals, c, x);
      EvalWithin(env, ByFirstTask, map[], c, x);
    }
    if Flatten(c).Some? && Steppable(c, false) {
      CompilerCorrect(env, c, x);
      forall call | call in Eval(env, ByFirstTask, map[], c, x).calls ensures HasCaller(c, call) {
        EveryCallHasCaller(env, ByFirstTask, map[], c, x, call);
      }
    }
  }
}
