/** Workflows with the same definition compute the same thing. */
module SameDefinition {
  import opened Prelude
  import opened Continuation
  import opened Semantics
  import opened Keys
  import opened Serial
  import opened Definition
  import opened DefinitionHash
  import opened Rehydration

  /** The part of a tree that its definition text covers. */
  function Covered(c: Cont): SCont {
    Essence(ToSerializable(c))
  }

  ghost predicate AlikeOpt(c: Option<Cont>, d: Option<Cont>) {
    c.None? == d.None? && (c.Some? ==> Covered(c.value) == Covered(d.value))
  }

  lemma SameOpt(c: Option<Cont>, d: Option<Cont>)
    requires EssenceOpt(SerializeOpt(c)) == EssenceOpt(SerializeOpt(d))
    ensures AlikeOpt(c, d)
  {
  }

  predicate SameWait(c: Cont, d: Cont)
    requires c.AwaitSignal? && d.AwaitSignal?
  {
    c.signalName == d.signalName && c.timeout.Some? == d.timeout.Some?
  }

  /** Trees with equal covered parts are built alike. */
  lemma SameParts(c: Cont, d: Cont)
    requires Covered(c) == Covered(d)
    ensures c.id == d.id && AlikeOpt(Next(c), Next(d)) && (c.Task? <==> d.Task?) && (c.Delay? <==> d.Delay?)
    ensures (c.AwaitSignal? <==> d.AwaitSignal?) && (c.AwaitSignal? ==> SameWait(c, d))
    ensures c.Fork? <==> d.Fork?
    ensures c.Fork? ==> EssenceSeq(SerializeSeq(c.branches)) == EssenceSeq(SerializeSeq(d.branches))
    ensures (c.Branch? <==> d.Branch?) && (c.Branch? ==> AlikeOpt(c.default, d.default))
    ensures c.Loop? <==> d.Loop?
    ensures c.Loop? ==> Covered(c.body) == Covered(d.body) && c.maxIterations == d.maxIterations && c.onMax == d.onMax
    ensures (c.ChildWorkflow? <==> d.ChildWorkflow?) && (c.ChildWorkflow? ==> Covered(c.child) == Covered(d.child))
  {
    SameOpt(Next(c), Next(d));
    if c.Branch? && d.Branch? {
      SameOpt(c.default, d.default);
    }
  }

  lemma SameRoutes(c: Cont, d: Cont)
    requires c.Branch? && d.Branch? && Covered(c) == Covered(d)
    ensures c.routes.Keys == d.routes.Keys && forall k :: k in c.routes ==> Covered(c.routes[k]) == Covered(d.routes[k])
  {
    var s, t := ToSerializable(c), ToSerializable(d);
    RoutesOfEssence(s, t);
    assert s.routes == SerializeRoutes(c) && t.routes == SerializeRoutes(d);
    hide ToSerializable, Essence;
    assert s.routes.Keys == c.routes.Keys && t.routes.Keys == d.routes.Keys;
  }

  lemma SameHead(cs: seq<Cont>, ds: seq<Cont>)
    requires EssenceSeq(SerializeSeq(cs)) == EssenceSeq(SerializeSeq(ds))
    ensures cs == [] <==> ds == []
    ensures cs != [] ==>
      Covered(cs[0]) == Covered(ds[0]) && EssenceSeq(SerializeSeq(cs[1..])) == EssenceSeq(SerializeSeq(ds[1..]))
  {
    if cs != [] && ds != [] {
      var s, t := SerializeSeq(cs), SerializeSeq(ds);
      assert s[1..] == SerializeSeq(cs[1..]) && t[1..] == SerializeSeq(ds[1..]);
      assert EssenceSeq(s)[0] == EssenceSeq(t)[0] && EssenceSeq(s)[1..] == EssenceSeq(t)[1..];
      assert EssenceSeq(s)[1..] == EssenceSeq(s[1..]) && EssenceSeq(t)[1..] == EssenceSeq(t[1..]);
    }
  }

  lemma {:induction false} SameFirstTask(c: Cont, d: Cont)
    requires Covered(c) == Covered(d)
    ensures FirstTaskId(c) == FirstTaskId(d)
  {
    SameParts(c, d);
    hide Covered, Essence, ToSerializable;
    match c
    case Fork(_, branches, _) =>
      SameHead(branches, d.branches);
      if branches != [] {
        SameFirstTask(branches[0], d.branches[0]);
      }
    case Loop(_, body, _, _, _) => SameFirstTask(body, d.body);
    case ChildWorkflow(_, child, _) => SameFirstTask(child, d.child);
    case _ =>
  }

  // ----- equal covered parts, equal meaning -----

  lemma {:induction false} SameEval(env: Env, labels: Labels, signals: map<string, Bytes>, c: Cont, d: Cont, x: Bytes)
    requires Covered(c) == Covered(d)
    ensures Eval(env, labels, signals, c, x) == Eval(env, labels, signals, d, x)
    decreases c, 2
  {
    hide Covered, EvalNode;
    SameParts(c, d);
    SameEvalNode(env, labels, signals, c, d, x);
    var r := EvalNode(env, labels, signals, c, x);
    if r.out.Done? && Next(c).Some? {
      SameEval(env, labels, signals, Next(c).value, Next(d).value, r.out.value);
    }
  }

  lemma {:induction false} SameEvalNode(
      env: Env, labels: Labels, signals: map<string, Bytes>, c: Cont, d: Cont, x: Bytes)
    requires Covered(c) == Covered(d)
    ensures EvalNode(env, labels, signals, c, x) == EvalNode(env, labels, signals, d, x)
    decreases c, 1
  {
    hide Covered, Eval, EvalBranches, EvalLoop;
    SameParts(c, d);
    match c
    case Fork(_, branches, _) => SameEvalBranches(env, labels, signals, branches, d.branches, x);
    case Branch(id, _, _, _, _) =>
      var k := Invoke(env, KeyFnId(id), x);
      if k.out.Done? {
        SameChoice(env, c, d, k.out.value);
        var chosen, chosen' := Choose(env, c, k.out.value), Choose(env, d, k.out.value);
        if chosen.Ok? {
          SameEval(env, labels, signals, chosen.value.1, chosen'.value.1, x);
        }
      }
    case Loop(_, _, _, _, _) => SameEvalLoop(env, labels, signals, c, d, 0, x);
    case ChildWorkflow(_, child, _) => SameEval(env, labels, signals, child, d.child, x);
    case _ =>
  }

  lemma SameChoice(env: Env, c: Cont, d: Cont, answer: Bytes)
    requires c.Branch? && d.Branch? && Covered(c) == Covered(d)
    ensures
      var r, r' := Choose(env, c, answer), Choose(env, d, answer);
      && r.Ok? == r'.Ok? && (r.Err? ==> r.error == r'.error)
      && (r.Ok? ==> r.value.0 == r'.value.0 && Covered(r.value.1) == Covered(r'.value.1))
  {
    SameParts(c, d);
    SameRoutes(c, d);
    hide Covered;
  }

  lemma {:induction false} SameEvalBranches(
      env: Env, labels: Labels, signals: map<string, Bytes>, cs: seq<Cont>, ds: seq<Cont>, x: Bytes)
    requires EssenceSeq(SerializeSeq(cs)) == EssenceSeq(SerializeSeq(ds))
    ensures EvalBranches(env, labels, signals, cs, x) == EvalBranches(env, labels, signals, ds, x)
    decreases cs, 3
  {
    hide Covered, Eval, EssenceSeq, SerializeSeq;
    SameHead(cs, ds);
    if cs != [] {
      SameEval(env, labels, signals, cs[0], ds[0], x);
      SameFirstTask(cs[0], ds[0]);
      SameParts(cs[0], ds[0]);
      SameEvalBranches(env, labels, signals, cs[1..], ds[1..], x);
    }
  }

  lemma {:induction false} SameEvalLoop(
      env: Env, labels: Labels, signals: map<string, Bytes>, c: Cont, d: Cont, i: nat, x: Bytes)
    requires c.Loop? && d.Loop? && Covered(c) == Covered(d)
    ensures EvalLoop(env, labels, signals, c, i, x) == EvalLoop(env, labels, signals, d, i, x)
    decreases c, 0, c.maxIterations - i
  {
    hide Covered, Eval;
    SameParts(c, d);
    if i < c.maxIterations {
      SameEval(env, labels, signals, c.body, d.body, x);
      var r := Eval(env, labels, signals, c.body, x);
      if r.out.Done? {
        var t := env.decodeLoop(r.out.value);
        if t.Ok? && t.value.0 == "again" {
          SameEvalLoop(env, labels, signals, c, d, i + 1, t.value.1);
        }
      }
    }
  }

  /**
   The purpose of the definition hash: two workflows whose names avoid the delimiters and that feed the
   hasher the same text give the same result, with the same task calls, on every input.
   */
  lemma SameTextSameMeaning(
      o: Order, o': Order, env: Env, labels: Labels, signals: map<string, Bytes>, c: Cont, d: Cont, x: Bytes)
    requires Enumerates(o) && Enumerates(o') && Clean(ToSerializable(c)) && Clean(ToSerializable(d))
    requires Text(o, ToSerializable(c), "") == Text(o', ToSerializable(d), "")
    ensures Eval(env, labels, signals, c, x) == Eval(env, labels, signals, d, x)
  {
    TextIdentifiesDefinition(o, o', ToSerializable(c), ToSerializable(d));
    SameEval(env, labels, signals, c, d, x);
  }

  /** A tree that was stored and rehydrated still computes what the original did, with the same text. */
  lemma RehydrationPreservesMeaning(
      order: Order, reg: Registry, env: Env, labels: Labels, signals: map<string, Bytes>, c: Cont, x: Bytes)
    requires Enumerates(order) && ToRunnable(order, reg, ToSerializable(c)).Ok?
    ensures
      var d := ToRunnable(order, reg, ToSerializable(c)).value;
      && Eval(env, labels, signals, d, x) == Eval(env, labels, signals, c, x)
      && Text(order, ToSerializable(d), "") == Text(order, ToSerializable(c), "")
  {
    RehydrationExact(order, reg, ToSerializable(c));
    SameEval(env, labels, signals, ToRunnable(order, reg, ToSerializable(c)).value, c, x);
  }
}
