/**
 Resuming an instance with a tree of its own: the stored definition is compared first, and a tree that
 passes is as good as the one the instance was launched with.
 */
module Redeployment {
  import opened Prelude
  import opened Continuation
  import opened Semantics
  import opened Keys
  import opened Definition
  import opened DefinitionHash
  import opened Rehydration
  import opened SameDefinition
  import opened Snapshots
  import opened Durable
  import opened DurableFresh
  import opened Agreement
  import opened DurableResume
  import opened Lifecycle
  import opened CrashResume

  // ----- everything the executor's correctness rests on is covered by the definition -----

  lemma {:induction false} SamePointwise(cs: seq<Cont>, ds: seq<Cont>)
    requires EssenceSeq(SerializeSeq(cs)) == EssenceSeq(SerializeSeq(ds))
    ensures |cs| == |ds| && forall i :: 0 <= i < |cs| ==> Covered(cs[i]) == Covered(ds[i])
    decreases |cs|
  {
    hide Covered, EssenceSeq, SerializeSeq;
    SameHead(cs, ds);
    if cs != [] {
      SamePointwise(cs[1..], ds[1..]);
      forall i | 0 <= i < |cs| ensures Covered(cs[i]) == Covered(ds[i]) {
        assert i > 0 ==> cs[i] == cs[1..][i - 1] && ds[i] == ds[1..][i - 1];
      }
    }
  }

  lemma {:induction false} SameIds(c: Cont, d: Cont)
    requires Covered(c) == Covered(d)
    ensures Ids(c) == Ids(d)
    decreases c, 1
  {
    hide Covered, NodeIds;
    SameParts(c, d);
    SameNodeIds(c, d);
    if Next(c).Some? {
      SameIds(Next(c).value, Next(d).value);
    }
  }

  lemma {:induction false} SameNodeIds(c: Cont, d: Cont)
    requires Covered(c) == Covered(d)
    ensures NodeIds(c) == NodeIds(d)
    decreases c, 0
  {
    hide Covered, Ids, BranchIds;
    SameParts(c, d);
    match c
    case Fork(_, branches, _) => SameBranchIds(branches, d.branches);
    case Branch(_, _, routes, default, _) =>
      SameRoutes(c, d);
      forall k | k in routes ensures Ids(routes[k]) == Ids(d.routes[k]) {
        SameIds(routes[k], d.routes[k]);
      }
      var a := set k, i | k in routes && i in Ids(routes[k]) :: i;
      var b := set k, i | k in d.routes && i in Ids(d.routes[k]) :: i;
      forall i | i in a ensures i in b {
        var k :| k in routes && i in Ids(routes[k]);
        assert k in d.routes;
      }
      forall i | i in b ensures i in a {
        var k :| k in d.routes && i in Ids(d.routes[k]);
        assert k in routes;
      }
      assert a == b;
      if default.Some? {
        SameIds(default.value, d.default.value);
      }
    case Loop(_, body, _, _, _) => SameIds(body, d.body);
    case ChildWorkflow(_, child, _) => SameIds(child, d.child);
    case _ =>
  }

  lemma {:induction false} SameBranchIds(cs: seq<Cont>, ds: seq<Cont>)
    requires EssenceSeq(SerializeSeq(cs)) == EssenceSeq(SerializeSeq(ds))
    ensures BranchIds(cs) == BranchIds(ds)
    decreases cs, 2
  {
    hide Covered, Ids, EssenceSeq, SerializeSeq;
    SameHead(cs, ds);
    if cs != [] {
      SameIds(cs[0], ds[0]);
      SameBranchIds(cs[1..], ds[1..]);
    }
  }

  lemma {:induction false} SameDistinct(c: Cont, d: Cont)
    requires Covered(c) == Covered(d) && Distinct(c)
    ensures Distinct(d)
    decreases c, 1
  {
    hide Covered, NodeIds, DistinctNode;
    SameParts(c, d);
    SameNodeIds(c, d);
    SameDistinctNode(c, d);
    if Next(c).Some? {
      SameDistinct(Next(c).value, Next(d).value);
      SameIds(Next(c).value, Next(d).value);
    }
  }

  lemma {:induction false} SameDistinctNode(c: Cont, d: Cont)
    requires Covered(c) == Covered(d) && DistinctNode(c)
    ensures DistinctNode(d)
    decreases c, 0
  {
    hide Covered, Ids, BranchIds, Distinct, DistinctBranches;
    SameParts(c, d);
    match c
    case Fork(_, branches, _) => SameDistinctBranches(branches, d.branches);
    case Branch(_, _, routes, default, _) =>
      SameRoutes(c, d);
      forall k | k in d.routes ensures Distinct(d.routes[k]) && d.id !in Ids(d.routes[k]) {
        SameDistinct(routes[k], d.routes[k]);
        SameIds(routes[k], d.routes[k]);
      }
      if default.Some? {
        SameDistinct(default.value, d.default.value);
        SameIds(default.value, d.default.value);
      }
    case Loop(_, body, _, _, _) =>
      SameDistinct(body, d.body);
      SameIds(body, d.body);
    case ChildWorkflow(_, child, _) =>
      SameDistinct(child, d.child);
      SameIds(child, d.child);
    case _ =>
  }

  lemma {:induction false} SameDistinctBranches(cs: seq<Cont>, ds: seq<Cont>)
    requires EssenceSeq(SerializeSeq(cs)) == EssenceSeq(SerializeSeq(ds)) && DistinctBranches(cs)
    ensures DistinctBranches(ds)
    decreases cs, 2
  {
    hide Covered, Ids, Distinct, EssenceSeq, SerializeSeq;
    SameHead(cs, ds);
    if cs != [] {
      SameDistinct(cs[0], ds[0]);
      SameIds(cs[0], ds[0]);
      SameParts(cs[0], ds[0]);
      if cs[0].Fork? {
        SameBranchIds(cs[0].branches, ds[0].branches);
      }
      SameBranchIds(cs[1..], ds[1..]);
      SameDistinctBranches(cs[1..], ds[1..]);
    }
  }

  lemma {:induction false} SameResumable(c: Cont, d: Cont, top: bool)
    requires Covered(c) == Covered(d) && Resumable(c, top)
    ensures Resumable(d, top)
    decreases c, 1
  {
    hide Covered, ResumableNode;
    SameParts(c, d);
    SameResumableNode(c, d, top);
    if Next(c).Some? {
      SameResumable(Next(c).value, Next(d).value, top);
    }
  }

  lemma {:induction false} SameResumableNode(c: Cont, d: Cont, top: bool)
    requires Covered(c) == Covered(d) && ResumableNode(c, top)
    ensures ResumableNode(d, top)
    decreases c, 0
  {
    hide Covered, Resumable;
    SameParts(c, d);
    match c
    case Fork(_, branches, _) =>
      SamePointwise(branches, d.branches);
      forall b | b in d.branches ensures Resumable(b, false) && (b.Fork? || Next(b).None?) {
        var i :| 0 <= i < |d.branches| && d.branches[i] == b;
        assert branches[i] in branches;
        SameResumable(branches[i], b, false);
        SameParts(branches[i], b);
      }
    case Branch(_, _, routes, default, _) =>
      SameRoutes(c, d);
      forall k | k in d.routes ensures Resumable(d.routes[k], false) {
        SameResumable(routes[k], d.routes[k], false);
      }
      if default.Some? {
        SameResumable(default.value, d.default.value, false);
      }
    case ChildWorkflow(_, child, _) => SameResumable(child, d.child, false);
    case _ =>
  }

  lemma {:induction false} SameRootSafe(c: Cont, d: Cont)
    requires Covered(c) == Covered(d) && RootSafe(c)
    ensures RootSafe(d)
  {
    hide Covered;
    SameParts(c, d);
    match c
    case Delay(_, _, next) =>
      if next.Some? {
        SameRootSafe(next.value, d.next.value);
      }
    case ChildWorkflow(_, child, _) => SameRootSafe(child, d.child);
    case _ =>
  }

  /** Whether a tree may be crashed and resumed depends on its definition alone. */
  lemma SameSupported(c: Cont, d: Cont)
    requires Covered(c) == Covered(d) && Supported(c)
    ensures Supported(d)
  {
    SameDistinct(c, d);
    SameResumable(c, d, true);
    SameRootSafe(c, d);
  }

  lemma {:induction false} SameAgree(env: Env, c: Cont, d: Cont, x: Bytes, done: Recorded)
    requires Covered(c) == Covered(d) && Agree(env, c, x, done)
    ensures Agree(env, d, x, done)
    decreases c, 2
  {
    hide Covered, AgreeNode, EvalNode, Eval, Ids;
    SameParts(c, d);
    SameAgreeNode(env, c, d, x, done);
    SameEvalNode(env, ByNodeId, done, c, d, x);
    SameFinished(c, d, done);
    if Next(c).Some? {
      SameIds(Next(c).value, Next(d).value);
      var out := EvalNode(env, ByNodeId, done, c, x).out;
      if Finished(c, done) && out.Done? {
        SameAgree(env, Next(c).value, Next(d).value, out.value, done);
      }
    }
  }

  lemma SameFinished(c: Cont, d: Cont, done: Recorded)
    requires Covered(c) == Covered(d)
    ensures Finished(c, done) == Finished(d, done)
  {
    StillFinished(c, d, done);
    StillFinished(d, c, done);
  }

  lemma StillFinished(c: Cont, d: Cont, done: Recorded)
    requires Covered(c) == Covered(d)
    ensures Finished(c, done) ==> Finished(d, done)
  {
    hide Covered;
    SameParts(c, d);
    if Finished(c, done) && c.Fork? {
      SamePointwise(c.branches, d.branches);
      forall b | b in d.branches ensures b.id in done {
        var i :| 0 <= i < |d.branches| && d.branches[i] == b;
        SameParts(c.branches[i], b);
        assert c.branches[i] in c.branches;
      }
    }
  }

  lemma {:induction false} SameAgreeNode(env: Env, c: Cont, d: Cont, x: Bytes, done: Recorded)
    requires Covered(c) == Covered(d) && AgreeNode(env, c, x, done)
    ensures AgreeNode(env, d, x, done)
    decreases c, 1
  {
    hide Covered, Agree, AgreeBranch, EvalNode, Eval;
    SameParts(c, d);
    SameEvalNode(env, ByNodeId, done, c, d, x);
    match c
    case Fork(_, branches, _) =>
      SamePointwise(branches, d.branches);
      forall b | b in d.branches ensures AgreeBranch(env, b, x, done) {
        var i :| 0 <= i < |d.branches| && d.branches[i] == b;
        assert branches[i] in branches;
        SameAgreeBranch(env, branches[i], b, x, done);
      }
    case Branch(id, _, _, _, _) =>
      var k := env.task(KeyFnId(id), x);
      if k.Ok? {
        SameChoice(env, c, d, k.value);
        var r, r' := Choose(env, c, k.value), Choose(env, d, k.value);
        if r.Ok? {
          SameAgree(env, r.value.1, r'.value.1, x, done);
        }
      }
    case ChildWorkflow(_, child, _) => SameAgree(env, child, d.child, x, done);
    case _ =>
  }

  lemma {:induction false} SameAgreeBranch(env: Env, c: Cont, d: Cont, x: Bytes, done: Recorded)
    requires Covered(c) == Covered(d) && AgreeBranch(env, c, x, done)
    ensures AgreeBranch(env, d, x, done)
    decreases c, 3
  {
    hide Covered, Agree, Eval;
    SameParts(c, d);
    SameAgree(env, c, d, x, done);
    SameEval(env, ByNodeId, done, c, d, x);
  }

  lemma {:induction false} SameDemand(env: Env, done: Recorded, c: Cont, d: Cont, x: Bytes)
    requires Covered(c) == Covered(d)
    ensures Demand(env, done, c, x) <= Demand(env, done, d, x)
    decreases c, 2
  {
    hide Covered, DemandNode, EvalNode;
    SameParts(c, d);
    SameDemandNode(env, done, c, d, x);
    SameEvalNode(env, ByNodeId, done, c, d, x);
    var out := EvalNode(env, ByNodeId, done, c, x).out;
    if Next(c).Some? && out.Done? {
      SameDemand(env, done, Next(c).value, Next(d).value, out.value);
    }
  }

  lemma {:induction false} SameDemandNode(env: Env, done: Recorded, c: Cont, d: Cont, x: Bytes)
    requires Covered(c) == Covered(d)
    ensures DemandNode(env, done, c, x) <= DemandNode(env, done, d, x)
    decreases c, 1
  {
    hide Covered, Demand;
    SameParts(c, d);
    match c
    case Fork(_, branches, _) =>
      SamePointwise(branches, d.branches);
      forall call | call in DemandNode(env, done, c, x) ensures call in DemandNode(env, done, d, x) {
        var b :| b in branches && call in Demand(env, done, b, x);
        var i :| 0 <= i < |branches| && branches[i] == b;
        SameDemand(env, done, b, d.branches[i], x);
        assert d.branches[i] in d.branches;
      }
    case Branch(id, _, _, _, _) =>
      var k := env.task(KeyFnId(id), x);
      if k.Ok? {
        SameChoice(env, c, d, k.value);
        var r, r' := Choose(env, c, k.value), Choose(env, d, k.value);
        if r.Ok? {
          SameDemand(env, done, r.value.1, r'.value.1, x);
        }
      }
    case ChildWorkflow(_, child, _) => SameDemand(env, done, child, d.child, x);
    case _ =>
  }

  lemma SameOwned(c: Cont, d: Cont)
    requires Covered(c) == Covered(d)
    ensures Owned(c) == Owned(d)
  {
    hide Covered, Ids, NodeIds, BranchIds;
    SameParts(c, d);
    SameNodeIds(c, d);
    if c.Fork? {
      SameBranchIds(c.branches, d.branches);
    }
    if Next(c).Some? {
      SameIds(Next(c).value, Next(d).value);
    }
  }

  lemma SamePosition(env: Env, c: Cont, d: Cont, x: Bytes, p: Position, done: Recorded)
    requires Covered(c) == Covered(d) && PositionGood(env, c, x, true, map[], p, done)
    ensures PositionGood(env, d, x, true, map[], p, done)
  {
    SameEval(env, ByNodeId, done, c, d, x);
    SameOwned(c, d);
    hide Covered, Agree, Eval, Owned;
    if p.AtSignal? {
      forall v | Admits(env, p, v)
        ensures Answered(env, d, x, true, map[], p.nextTaskId.None?, With(done, p.signalId, v), v)
      {
        var done' := With(done, p.signalId, v);
        assert Answered(env, c, x, true, map[], p.nextTaskId.None?, done', v);
        SameAgree(env, c, d, x, done');
        SameEval(env, ByNodeId, done', c, d, x);
      }
    }
  }

  lemma SameGood(env: Env, c: Cont, d: Cont, x: Bytes, s: Snapshot)
    requires Covered(c) == Covered(d) && Good(env, c, x, true, map[], s)
    ensures Good(env, d, x, true, map[], s)
  {
    hide Covered, Agree, Owned, PositionGood;
    SameAgree(env, c, d, x, Results(s));
    SameOwned(c, d);
    if s.state.InProgress? || s.state.Paused? {
      SamePosition(env, c, d, x, s.state.position, s.state.completed);
    }
  }

  /** What the store may hold depends on the definition alone. */
  lemma SameFaithful(env: Env, o: Oracle, c: Cont, d: Cont, x: Bytes, w: World)
    requires Covered(c) == Covered(d) && Faithful(env, o, c, x, w)
    ensures Faithful(env, o, d, x, w)
  {
    hide Covered, Good, Eval, Demand, Answers, Reliable;
    SameEval(env, ByNodeId, Answers(w), c, d, x);
    SameDemand(env, Answers(w), c, d, x);
    if Resting(w.saved) {
      SameGood(env, c, d, x, w.saved);
      SameDemand(env, Results(w.saved), c, d, x);
    }
  }

  // ----- histories in which every resume brings its own tree -----

  datatype Request = ResumeWith(tree: Cont) | UnpauseIt

  /** The definition text stored with an instance. */
  function TextOf(order: Order, c: Cont): string {
    Text(order, ToSerializable(c), "")
  }

  /** A resume whose definition differs from the stored one is refused, without any effect on the store. */
  function Served(env: Env, o: Oracle, order: Order, definition: string, q: Request, w: World): World {
    match q
    case UnpauseIt => if w.saved.state.Paused? then Checkpoint(o, w.(snap := MarkUnpaused(w.saved))).1 else w
    case ResumeWith(d) => if TextOf(order, d) != definition then w.(snap := w.saved) else Attempt(env, o, d, w).1
  }

  /** The launch of `c`, followed by the requests. */
  function Serving(env: Env, o: Oracle, order: Order, c: Cont, x: Bytes, requests: seq<Request>): World {
    if requests == [] then Walk(env, o, c, x, Created(c, x)).1 else
    var n := |requests| - 1;
    Served(env, o, order, TextOf(order, c), requests[n], Serving(env, o, order, c, x, requests[..n]))
  }

  /** All names avoid the delimiters of the definition text. */
  predicate CleanRequest(q: Request) {
    q.ResumeWith? ==> Clean(ToSerializable(q.tree))
  }

  /**
   An instance may be resumed with any trees whatever: the definition check refuses those that would harm
   it. Whatever is completed, failed or saved is right for the tree the instance was launched with.
   */
  lemma {:induction false} RedeploymentIsSafe(
      env: Env, o: Oracle, order: Order, c: Cont, x: Bytes, requests: seq<Request>)
    requires Enumerates(order) && Honest(env, o) && Supported(c) && Clean(ToSerializable(c))
    requires forall q :: q in requests ==> CleanRequest(q)
    ensures Faithful(env, o, c, x, Serving(env, o, order, c, x, requests))
    decreases |requests|
  {
    hide Faithful, Supported, Attempt, Walk, Clean, Enumerates;
    if requests == [] {
      CreatedSound(env, c, x);
      WalkFaithful(env, o, c, x, Created(c, x));
    } else {
      var n := |requests| - 1;
      RedeploymentIsSafe(env, o, order, c, x, requests[..n]);
      var w := Serving(env, o, order, c, x, requests[..n]);
      ServedFaithful(env, o, order, c, x, requests[n], w);
    }
  }

  lemma ServedFaithful(env: Env, o: Oracle, order: Order, c: Cont, x: Bytes, q: Request, w: World)
    requires Enumerates(order) && Honest(env, o) && Supported(c) && Clean(ToSerializable(c)) && CleanRequest(q)
    requires Faithful(env, o, c, x, w)
    ensures Faithful(env, o, c, x, Served(env, o, order, TextOf(order, c), q, w))
  {
    match q
    case UnpauseIt =>
      UnpauseFaithful(env, o, c, x, w);
    case ResumeWith(d) =>
      if TextOf(order, d) == TextOf(order, c) {
        TextIdentifiesDefinition(order, order, ToSerializable(d), ToSerializable(c));
        assert Covered(d) == Covered(c);
        hide Faithful, Supported, Attempt, Covered, Clean, Enumerates, Honest;
        SameSupported(c, d);
        SameFaithful(env, o, c, d, x, w);
        AttemptFaithful(env, o, d, x, w);
        SameFaithful(env, o, d, c, x, Attempt(env, o, d, w).1);
      } else {
        ReloadFaithful(env, o, c, x, w);
      }
  }

  lemma ReloadFaithful(env: Env, o: Oracle, c: Cont, x: Bytes, w: World)
    requires Faithful(env, o, c, x, w)
    ensures Faithful(env, o, c, x, w.(snap := w.saved))
  {
    hide Eval, Demand, Good, Reliable;
  }
}
