/**
 When a set of recorded results is a faithful partial run of a workflow. `Agree` is the invariant
 that survives crashes: every recorded result is the one the reference semantics gives that node,
 and nothing is recorded behind a node that has not finished.
 */
module Agreement {
  import opened Prelude
  import opened Continuation
  import opened Semantics
  import opened Durable

  type Recorded = map<string, Bytes>

  /** The node's own result has been recorded; a fork is finished when all its branches are. */
  predicate Finished(c: Cont, done: Recorded) {
    if c.Fork? then forall b :: b in c.branches ==> b.id in done else c.id in done
  }

  ghost predicate Agree(env: Env, c: Cont, x: Bytes, done: Recorded)
    decreases c, 2
  {
    && AgreeNode(env, c, x, done)
    && (Next(c).Some? ==>
          var n := Next(c).value;
          var out := EvalNode(env, ByNodeId, done, c, x).out;
          if Finished(c, done) && out.Done? then Agree(env, n, out.value, done) else Ids(n) !! done.Keys)
  }

  /** As far as the node itself and what is nested in it go. Loops are outside the invariant. */
  ghost predicate AgreeNode(env: Env, c: Cont, x: Bytes, done: Recorded)
    decreases c, 1
  {
    && (!c.Fork? && c.id in done ==> EvalNode(env, ByNodeId, done, c, x).out == Done(done[c.id]))
    && match c {
      case Fork(_, branches, _) => forall b :: b in branches ==> AgreeBranch(env, b, x, done)
      case Branch(id, _, _, _, _) =>
        var k := env.task(KeyFnId(id), x);
        k.Ok? && Choose(env, c, k.value).Ok? ==> Agree(env, Choose(env, c, k.value).value.1, x, done)
      case ChildWorkflow(_, child, _) => Agree(env, child, x, done)
      case _ => true
    }
  }

  /** A branch of a fork is recorded under its id with the result of its whole chain. */
  ghost predicate AgreeBranch(env: Env, b: Cont, x: Bytes, done: Recorded)
    decreases b, 3
  {
    Agree(env, b, x, done) && (b.id in done ==> Eval(env, ByNodeId, done, b, x).out == Done(done[b.id]))
  }

  /** The calls the semantics makes in some branch or other, even if an earlier branch has not finished. */
  ghost function Demand(env: Env, done: Recorded, c: Cont, x: Bytes): iset<Call>
    decreases c, 2
  {
    var out := EvalNode(env, ByNodeId, done, c, x).out;
    DemandNode(env, done, c, x) +
    if Next(c).Some? && out.Done? then Demand(env, done, Next(c).value, out.value) else iset{}
  }

  ghost function DemandNode(env: Env, done: Recorded, c: Cont, x: Bytes): iset<Call>
    decreases c, 1
  {
    match c
    case Task(id, _, _, _) => iset{Call(id, x)}
    case Fork(_, branches, _) => iset b, call | b in branches && call in Demand(env, done, b, x) :: call
    case Branch(id, _, _, _, _) =>
      var k := env.task(KeyFnId(id), x);
      iset{Call(KeyFnId(id), x)} +
      if k.Ok? && Choose(env, c, k.value).Ok? then Demand(env, done, Choose(env, c, k.value).value.1, x) else iset{}
    case ChildWorkflow(_, child, _) => Demand(env, done, child, x)
    case _ => iset{}
  }

  // ----- recorded results that coincide, or grow -----

  ghost predicate SameOn(a: Recorded, b: Recorded, ids: set<string>) {
    forall k :: k in ids ==> Get(a, k) == Get(b, k)
  }

  ghost predicate Grows(a: Recorded, b: Recorded) {
    forall k :: k in a ==> k in b && b[k] == a[k]
  }

  /** `b` adds to `a` results under `ids` only. */
  ghost predicate Extends(a: Recorded, b: Recorded, ids: set<string>) {
    Grows(a, b) && forall k :: k in b ==> k in a || k in ids
  }

  /** The ids a node may record results under; a fork never records its own. */
  function NodeOwned(c: Cont): (ids: set<string>)
    ensures ids <= NodeIds(c)
  {
    if c.Fork? then BranchIds(c.branches) else NodeIds(c)
  }

  function Owned(c: Cont): (ids: set<string>)
    ensures ids <= Ids(c)
  {
    NodeOwned(c) + if Next(c).Some? then Ids(Next(c).value) else {}
  }

  lemma ExtendsTrans(a: Recorded, b: Recorded, c: Recorded, ids1: set<string>, ids2: set<string>, ids: set<string>)
    requires Extends(a, b, ids1) && Extends(b, c, ids2) && ids1 <= ids && ids2 <= ids
    ensures Extends(a, c, ids)
  {
  }

  /** The ids of what a branch node may route to. */
  lemma RouteIds(c: Cont, key: string)
    requires c.Branch? && Route(c, key).Some?
    ensures Ids(Route(c, key).value) <= NodeIds(c)
  {
  }

  lemma {:induction false} BranchIdsAt(branches: seq<Cont>, b: Cont)
    requires b in branches
    ensures Ids(b) <= BranchIds(branches)
    decreases branches
  {
    if b != branches[0] {
      BranchIdsAt(branches[1..], b);
    }
  }

  lemma {:induction false} EvalSame(env: Env, c: Cont, x: Bytes, a: Recorded, b: Recorded)
    requires SameOn(a, b, Owned(c))
    ensures Eval(env, ByNodeId, a, c, x) == Eval(env, ByNodeId, b, c, x)
    decreases c, 2
  {
    EvalNodeSame(env, c, x, a, b);
    var out := EvalNode(env, ByNodeId, a, c, x).out;
    if Next(c).Some? && out.Done? {
      EvalSame(env, Next(c).value, out.value, a, b);
    }
  }

  lemma {:induction false} EvalNodeSame(env: Env, c: Cont, x: Bytes, a: Recorded, b: Recorded)
    requires SameOn(a, b, NodeOwned(c))
    ensures EvalNode(env, ByNodeId, a, c, x) == EvalNode(env, ByNodeId, b, c, x)
    decreases c, 1
  {
    match c
    case AwaitSignal(id, _, _, _) => assert Get(a, id) == Get(b, id);
    case Fork(_, branches, _) => EvalBranchesSame(env, branches, x, a, b);
    case Branch(id, _, _, _, _) =>
      var k := env.task(KeyFnId(id), x);
      if k.Ok? && Choose(env, c, k.value).Ok? {
        RouteIds(c, Choose(env, c, k.value).value.0);
        EvalSame(env, Choose(env, c, k.value).value.1, x, a, b);
      }
    case Loop(_, _, _, _, _) => EvalLoopSame(env, c, 0, x, a, b);
    case ChildWorkflow(_, child, _) => EvalSame(env, child, x, a, b);
    case _ =>
  }

  lemma {:induction false} EvalLoopSame(env: Env, c: Cont, i: nat, x: Bytes, a: Recorded, b: Recorded)
    requires c.Loop? && SameOn(a, b, Ids(c.body))
    ensures EvalLoop(env, ByNodeId, a, c, i, x) == EvalLoop(env, ByNodeId, b, c, i, x)
    decreases c, 0, c.maxIterations - i
  {
    if i < c.maxIterations {
      EvalSame(env, c.body, x, a, b);
      var out := Eval(env, ByNodeId, a, c.body, x).out;
      if out.Done? && env.decodeLoop(out.value).Ok? {
        EvalLoopSame(env, c, i + 1, env.decodeLoop(out.value).value.1, a, b);
      }
    }
  }

  lemma {:induction false} EvalBranchesSame(env: Env, branches: seq<Cont>, x: Bytes, a: Recorded, b: Recorded)
    requires SameOn(a, b, BranchIds(branches))
    ensures EvalBranches(env, ByNodeId, a, branches, x) == EvalBranches(env, ByNodeId, b, branches, x)
    decreases branches, 3
  {
    if branches != [] {
      EvalSame(env, branches[0], x, a, b);
      EvalBranchesSame(env, branches[1..], x, a, b);
    }
  }

  /** More recorded payloads do not change a result that has been reached. */
  lemma {:induction false} EvalGrows(env: Env, c: Cont, x: Bytes, a: Recorded, b: Recorded)
    requires Grows(a, b) && Eval(env, ByNodeId, a, c, x).out.Done?
    ensures Eval(env, ByNodeId, b, c, x) == Eval(env, ByNodeId, a, c, x)
    decreases c, 2
  {
    EvalNodeGrows(env, c, x, a, b);
    var out := EvalNode(env, ByNodeId, a, c, x).out;
    if Next(c).Some? {
      EvalGrows(env, Next(c).value, out.value, a, b);
    }
  }

  lemma {:induction false} EvalNodeGrows(env: Env, c: Cont, x: Bytes, a: Recorded, b: Recorded)
    requires Grows(a, b) && EvalNode(env, ByNodeId, a, c, x).out.Done?
    ensures EvalNode(env, ByNodeId, b, c, x) == EvalNode(env, ByNodeId, a, c, x)
    decreases c, 1
  {
    match c
    case Fork(_, branches, _) =>
      EvalBranchesStop(env, branches, x, a);
      EvalBranchesGrow(env, branches, x, a, b);
    case Branch(id, _, _, _, _) =>
      var k := env.task(KeyFnId(id), x);
      if k.Ok? && Choose(env, c, k.value).Ok? {
        EvalGrows(env, Choose(env, c, k.value).value.1, x, a, b);
      }
    case Loop(_, _, _, _, _) => EvalLoopGrows(env, c, 0, x, a, b);
    case ChildWorkflow(_, child, _) => EvalGrows(env, child, x, a, b);
    case _ =>
  }

  lemma {:induction false} EvalLoopGrows(env: Env, c: Cont, i: nat, x: Bytes, a: Recorded, b: Recorded)
    requires c.Loop? && Grows(a, b) && EvalLoop(env, ByNodeId, a, c, i, x).out.Done?
    ensures EvalLoop(env, ByNodeId, b, c, i, x) == EvalLoop(env, ByNodeId, a, c, i, x)
    decreases c, 0, c.maxIterations - i
  {
    if i < c.maxIterations {
      EvalGrows(env, c.body, x, a, b);
      var d := env.decodeLoop(Eval(env, ByNodeId, a, c.body, x).out.value);
      if d.value.0 == "again" {
        EvalLoopGrows(env, c, i + 1, d.value.1, a, b);
      }
    }
  }

  /** A fork stops at a branch that has no result. */
  lemma {:induction false} EvalBranchesStop(env: Env, branches: seq<Cont>, x: Bytes, a: Recorded)
    ensures var stop := EvalBranches(env, ByNodeId, a, branches, x).stop; stop.Some? ==> !stop.value.Done?
    decreases branches
  {
    if branches != [] {
      EvalBranchesStop(env, branches[1..], x, a);
    }
  }

  lemma {:induction false} EvalBranchesGrow(env: Env, branches: seq<Cont>, x: Bytes, a: Recorded, b: Recorded)
    requires Grows(a, b) && EvalBranches(env, ByNodeId, a, branches, x).stop.None?
    ensures EvalBranches(env, ByNodeId, b, branches, x) == EvalBranches(env, ByNodeId, a, branches, x)
    decreases branches, 3
  {
    if branches != [] {
      EvalGrows(env, branches[0], x, a, b);
      EvalBranchesGrow(env, branches[1..], x, a, b);
    }
  }

  lemma {:induction false} DemandGrows(env: Env, c: Cont, x: Bytes, a: Recorded, b: Recorded)
    requires Grows(a, b)
    ensures Demand(env, a, c, x) <= Demand(env, b, c, x)
    decreases c, 2
  {
    DemandNodeGrows(env, c, x, a, b);
    var out := EvalNode(env, ByNodeId, a, c, x).out;
    if Next(c).Some? && out.Done? {
      EvalNodeGrows(env, c, x, a, b);
      DemandGrows(env, Next(c).value, out.value, a, b);
    }
  }

  lemma {:induction false} DemandNodeGrows(env: Env, c: Cont, x: Bytes, a: Recorded, b: Recorded)
    requires Grows(a, b)
    ensures DemandNode(env, a, c, x) <= DemandNode(env, b, c, x)
    decreases c, 1
  {
    match c
    case Fork(_, branches, _) =>
      forall br | br in branches ensures Demand(env, a, br, x) <= Demand(env, b, br, x) {
        DemandGrows(env, br, x, a, b);
      }
    case Branch(id, _, _, _, _) =>
      var k := env.task(KeyFnId(id), x);
      if k.Ok? && Choose(env, c, k.value).Ok? {
        DemandGrows(env, Choose(env, c, k.value).value.1, x, a, b);
      }
    case ChildWorkflow(_, child, _) => DemandGrows(env, child, x, a, b);
    case _ =>
  }

  // ----- the invariant -----

  /** A tree nothing of which has been recorded agrees with any input. */
  lemma {:induction false} AgreeUntouched(env: Env, c: Cont, x: Bytes, done: Recorded)
    requires Ids(c) !! done.Keys
    ensures Agree(env, c, x, done)
    decreases c, 2
  {
    AgreeNodeUntouched(env, c, x, done);
    if Next(c).Some? && Finished(c, done) && EvalNode(env, ByNodeId, done, c, x).out.Done? {
      AgreeUntouched(env, Next(c).value, EvalNode(env, ByNodeId, done, c, x).out.value, done);
    }
  }

  lemma {:induction false} AgreeNodeUntouched(env: Env, c: Cont, x: Bytes, done: Recorded)
    requires NodeIds(c) !! done.Keys
    ensures AgreeNode(env, c, x, done)
    decreases c, 1
  {
    assert c.id in NodeIds(c);
    match c
    case Fork(_, branches, _) =>
      forall b | b in branches ensures AgreeBranch(env, b, x, done) {
        BranchIdsAt(branches, b);
        assert b.id in Ids(b);
        AgreeUntouched(env, b, x, done);
      }
    case Branch(id, _, _, _, _) =>
      var k := env.task(KeyFnId(id), x);
      if k.Ok? && Choose(env, c, k.value).Ok? {
        RouteIds(c, Choose(env, c, k.value).value.0);
        AgreeUntouched(env, Choose(env, c, k.value).value.1, x, done);
      }
    case ChildWorkflow(_, child, _) => AgreeUntouched(env, child, x, done);
    case _ =>
  }

  /** Agreement depends only on what is recorded under the tree's own ids. */
  lemma {:induction false} AgreeSame(env: Env, c: Cont, x: Bytes, a: Recorded, b: Recorded)
    requires SameOn(a, b, Owned(c)) && Agree(env, c, x, a)
    ensures Agree(env, c, x, b)
    decreases c, 2
  {
    AgreeNodeSame(env, c, x, a, b);
    EvalNodeSame(env, c, x, a, b);
    FinishedSame(c, a, b);
    if Next(c).Some? {
      var n := Next(c).value;
      var out := EvalNode(env, ByNodeId, a, c, x).out;
      if Finished(c, a) && out.Done? {
        AgreeSame(env, n, out.value, a, b);
      } else {
        forall k | k in Ids(n) ensures k !in b {
          assert Get(a, k) == Get(b, k);
        }
      }
    }
  }

  lemma FinishedSame(c: Cont, a: Recorded, b: Recorded)
    requires SameOn(a, b, NodeOwned(c))
    ensures Finished(c, a) == Finished(c, b)
  {
    if c.Fork? {
      forall br | br in c.branches ensures br.id in a <==> br.id in b {
        BranchIdsAt(c.branches, br);
        assert br.id in Ids(br);
        assert Get(a, br.id) == Get(b, br.id);
      }
    } else {
      assert Get(a, c.id) == Get(b, c.id);
    }
  }

  lemma {:induction false} AgreeNodeSame(env: Env, c: Cont, x: Bytes, a: Recorded, b: Recorded)
    requires SameOn(a, b, NodeOwned(c)) && AgreeNode(env, c, x, a)
    ensures AgreeNode(env, c, x, b)
    decreases c, 1
  {
    EvalNodeSame(env, c, x, a, b);
    assert !c.Fork? ==> Get(a, c.id) == Get(b, c.id);
    match c
    case Fork(_, branches, _) =>
      forall br | br in branches ensures AgreeBranch(env, br, x, b) {
        BranchIdsAt(branches, br);
        AgreeBranchSame(env, br, x, a, b);
      }
    case Branch(id, _, _, _, _) =>
      var k := env.task(KeyFnId(id), x);
      if k.Ok? && Choose(env, c, k.value).Ok? {
        RouteIds(c, Choose(env, c, k.value).value.0);
        AgreeSame(env, Choose(env, c, k.value).value.1, x, a, b);
      }
    case ChildWorkflow(_, child, _) => AgreeSame(env, child, x, a, b);
    case _ =>
  }

  lemma {:induction false} AgreeBranchSame(env: Env, br: Cont, x: Bytes, a: Recorded, b: Recorded)
    requires SameOn(a, b, Ids(br)) && AgreeBranch(env, br, x, a)
    ensures AgreeBranch(env, br, x, b)
    decreases br, 3
  {
    AgreeSame(env, br, x, a, b);
    EvalSame(env, br, x, a, b);
    assert br.id in Ids(br);
    assert Get(a, br.id) == Get(b, br.id);
  }

  /** Progress inside a node keeps the agreement of the chain that starts there. */
  lemma AgreeLift(env: Env, c: Cont, x: Bytes, a: Recorded, b: Recorded)
    requires Agree(env, c, x, a) && Extends(a, b, NodeIds(c)) && AgreeNode(env, c, x, b)
    requires Next(c).Some? ==> NodeIds(c) !! Ids(Next(c).value)
    ensures Agree(env, c, x, b)
  {
    if Next(c).Some? {
      var n := Next(c).value;
      var outA, outB := EvalNode(env, ByNodeId, a, c, x).out, EvalNode(env, ByNodeId, b, c, x).out;
      assert SameOn(a, b, Ids(n));
      if Finished(c, a) && outA.Done? {
        EvalNodeGrows(env, c, x, a, b);
        AgreeSame(env, n, outA.value, a, b);
      } else if Finished(c, b) && outB.Done? {
        forall k | k in Ids(n) ensures k !in b { }
        AgreeUntouched(env, n, outB.value, b);
      }
    }
  }

  /** Progress behind a finished node keeps the agreement of the whole chain. */
  lemma AgreeStep(env: Env, c: Cont, x: Bytes, a: Recorded, b: Recorded)
    requires Next(c).Some? && NodeIds(c) !! Ids(Next(c).value)
    requires AgreeNode(env, c, x, a) && Finished(c, a) && EvalNode(env, ByNodeId, a, c, x).out.Done?
    requires Extends(a, b, Ids(Next(c).value))
    requires Agree(env, Next(c).value, EvalNode(env, ByNodeId, a, c, x).out.value, b)
    ensures Agree(env, c, x, b) && EvalNode(env, ByNodeId, b, c, x) == EvalNode(env, ByNodeId, a, c, x)
  {
    assert SameOn(a, b, NodeIds(c));
    EvalNodeSame(env, c, x, a, b);
    AgreeNodeSame(env, c, x, a, b);
    FinishedSame(c, a, b);
  }
}
