/**
 Progress: with a backend that works, and resumes that are made when they are due, an instance comes to an end
 after at most as many resumes as its tree has ids.
 */
module Progress {
  import opened Prelude
  import opened Continuation
  import opened Semantics
  import opened Snapshots
  import opened Durable
  import opened DurableFresh
  import opened Agreement
  import opened DurableResume
  import opened Lifecycle
  import opened NoRepeat
  import opened CrashResume
  import opened Refinement

  /** The mailbox can be read. */
  ghost predicate MailWorks(o: Oracle) {
    forall t: nat, name :: o.mail(t, name).Delivered? || o.mail(t, name).NoMail?
  }

  /** Memory and store coincide in an instance in progress. */
  ghost predicate Synced(w: World) {
    w.snap.state.InProgress? && w.saved == w.snap
  }

  /** Results were only added, and a new one under one of `ids` if the walk is to wait. */
  ghost predicate Moved(ids: set<string>, w: World, w': World, waits: bool) {
    && Synced(w') && Results(w.snap).Keys <= Results(w'.snap).Keys
    && (waits ==> exists id :: id in ids && id !in Results(w.snap) && id in Results(w'.snap))
  }

  lemma MovedThen(
      ids1: set<string>, ids2: set<string>, ids: set<string>, w: World, w1: World, w2: World, a: bool, b: bool)
    requires Moved(ids1, w, w1, a) && Moved(ids2, w1, w2, b) && ids1 <= ids && ids2 <= ids
    ensures Moved(ids, w, w2, a || b)
  {
  }

  /** The walk has come to a signal wait that has no answer yet. */
  ghost predicate Asks(ids: set<string>, w: World) {
    && w.snap.state.InProgress? && w.snap.state.position.AtSignal?
    && w.snap.state.position.signalId in ids && w.snap.state.position.signalId !in Results(w.snap)
  }

  /** How a walk under good conditions can end. */
  ghost predicate Proceeds(ids: set<string>, w: World, r: ExecResult, w': World) {
    && (r.Ok? || r.error.Raised? || r.error.Waiting? || r.error.AwaitingSignal?)
    && Moved(ids, w, w', r.Err? && r.error.Waiting?)
    && (r.Err? && r.error.AwaitingSignal? ==> Asks(ids, w'))
  }

  lemma RecordMoves(o: Oracle, id: string, v: Bytes, w: World)
    requires Calm(o) && Synced(w)
    ensures var (r, w') := Record(o, id, v, w); r == Ok(v) && Moved({}, w, w', false)
  {
  }

  lemma {:induction false} ExecProceeds(env: Env, o: Oracle, c: Cont, x: Bytes, w: World)
    requires Calm(o) && MailWorks(o) && LoopFree(c) && Synced(w)
    ensures var (r, w') := Exec(env, o, c, x, w); Proceeds(Ids(c), w, r, w')
    decreases c, 2
  {
    hide ExecNode, NodeIds, LoopFreeNode, Calm, MailWorks;
    NodeProceeds(env, o, c, x, w);
    var (r, w1) := ExecNode(env, o, c, x, w);
    if r.Ok? && Next(c).Some? {
      ExecProceeds(env, o, Next(c).value, r.value, w1);
      var (r', w2) := Exec(env, o, Next(c).value, r.value, w1);
      MovedThen(NodeIds(c), Ids(Next(c).value), Ids(c), w, w1, w2, false, r'.Err? && r'.error.Waiting?);
    }
  }

  lemma {:induction false} NodeProceeds(env: Env, o: Oracle, c: Cont, x: Bytes, w: World)
    requires Calm(o) && MailWorks(o) && LoopFreeNode(c) && Synced(w)
    ensures var (r, w') := ExecNode(env, o, c, x, w); Proceeds(NodeIds(c), w, r, w')
    decreases c, 1
  {
    match c
    case Task(_, _, _, _) => TaskProceeds(env, o, c, x, w);
    case Delay(_, _, _) => DelayProceeds(o, c, x, w);
    case AwaitSignal(_, _, _, _) => SignalProceeds(o, c, w);
    case Fork(_, _, _) => ForkProceeds(env, o, c, x, w);
    case Branch(_, _, _, _, _) => BranchProceeds(env, o, c, x, w);
    case ChildWorkflow(_, _, _) => ChildProceeds(env, o, c, x, w);
  }

  lemma TaskProceeds(env: Env, o: Oracle, c: Cont, x: Bytes, w: World)
    requires Calm(o) && c.Task? && Synced(w)
    ensures var (r, w') := ExecTask(env, o, c, x, w); Proceeds(NodeIds(c), w, r, w')
  {
    hide FirstTaskId, NodeIds;
  }

  lemma DelayProceeds(o: Oracle, c: Cont, x: Bytes, w: World)
    requires Calm(o) && c.Delay? && Synced(w)
    ensures var (r, w') := ExecDelay(o, c, x, w); Proceeds(NodeIds(c), w, r, w')
  {
    hide SuccessorId, Span;
    assert c.id in NodeIds(c);
  }

  lemma SignalProceeds(o: Oracle, c: Cont, w: World)
    requires Calm(o) && MailWorks(o) && c.AwaitSignal? && Synced(w)
    ensures var (r, w') := ExecSignal(o, c, w); Proceeds(NodeIds(c), w, r, w')
  {
    hide FirstTaskId, SuccessorId, Span;
    assert c.id in NodeIds(c);
    assert o.mail(w.tick + 1, c.signalName).Delivered? || o.mail(w.tick + 1, c.signalName).NoMail?;
  }

  lemma {:induction false} ChildProceeds(env: Env, o: Oracle, c: Cont, x: Bytes, w: World)
    requires Calm(o) && MailWorks(o) && c.ChildWorkflow? && LoopFreeNode(c) && Synced(w)
    ensures var (r, w') := ExecNode(env, o, c, x, w); Proceeds(NodeIds(c), w, r, w')
    decreases c, 0
  {
    hide Exec, Record, LoopFree, MailWorks;
    var w1 := w.(tick := w.tick + 1);
    assert Guard(o, Some(c.id), w) == (None, w1);
    if TaskResult(w1.snap, c.id).None? {
      ExecProceeds(env, o, c.child, x, w1);
      var (r, w2) := Exec(env, o, c.child, x, w1);
      assert Moved(NodeIds(c), w, w2, r.Err? && r.error.Waiting?);
      if r.Ok? {
        RecordMoves(o, c.id, r.value, w2);
        MovedThen(NodeIds(c), {}, NodeIds(c), w, w2, Record(o, c.id, r.value, w2).1, false, false);
      }
    }
  }

  lemma {:induction false} BranchProceeds(env: Env, o: Oracle, c: Cont, x: Bytes, w: World)
    requires Calm(o) && MailWorks(o) && c.Branch? && LoopFreeNode(c) && Synced(w)
    ensures var (r, w') := ExecNode(env, o, c, x, w); Proceeds(NodeIds(c), w, r, w')
    decreases c, 0
  {
    var w1 := w.(tick := w.tick + 1);
    assert Guard(o, Some(c.id), w) == (None, w1);
    if TaskResult(w1.snap, c.id).None? {
      KeyProceeds(env, o, KeyFnId(c.id), x, w1);
      var (k, w2) := CallTask(env, o, KeyFnId(c.id), x, true, w1);
      hide Exec, Record, CallTask, LoopFree, MailWorks, NodeIds;
      if k.Ok? && Choose(env, c, k.value).Ok? {
        var (key, route) := Choose(env, c, k.value).value;
        RouteIds(c, key);
        ExecProceeds(env, o, route, x, w2);
        var (r, w3) := Exec(env, o, route, x, w2);
        assert Moved(NodeIds(c), w, w3, r.Err? && r.error.Waiting?);
        if r.Ok? && env.encodeEnvelope(key, r.value).Ok? {
          var v := env.encodeEnvelope(key, r.value).value;
          RecordMoves(o, c.id, v, w3);
          MovedThen(NodeIds(c), {}, NodeIds(c), w, w3, Record(o, c.id, v, w3).1, false, false);
        }
      }
    }
  }

  lemma KeyProceeds(env: Env, o: Oracle, id: string, x: Bytes, w: World)
    requires Calm(o) && Synced(w)
    ensures
      var (k, w') := CallTask(env, o, id, x, true, w);
      (k.Ok? || k.error.Raised?) && w'.snap == w.snap && Synced(w')
  {
  }

  lemma {:induction false} ForkProceeds(env: Env, o: Oracle, c: Cont, x: Bytes, w: World)
    requires Calm(o) && MailWorks(o) && c.Fork? && LoopFreeNode(c) && Synced(w)
    ensures var (r, w') := ExecNode(env, o, c, x, w); Proceeds(NodeIds(c), w, r, w')
    decreases c, 0
  {
    hide ExecBranches, LoopFree, MailWorks;
    var w1 := w.(tick := w.tick + 1);
    assert Guard(o, None, w) == (None, w1);
    BranchesProceed(env, o, c.branches, x, [], None, w1);
    var (r, w2) := ExecBranches(env, o, c.branches, x, [], None, w1);
    assert r.Ok? ==> Moved(NodeIds(c), w, w2, r.value.1.Some?);
  }

  lemma {:induction false} BranchesProceed(
      env: Env, o: Oracle, branches: seq<Cont>, x: Bytes, results: seq<(string, Bytes)>, wake: Option<int>, w: World)
    requires Calm(o) && MailWorks(o) && Synced(w) && forall b :: b in branches ==> LoopFree(b)
    ensures
      var (r, w') := ExecBranches(env, o, branches, x, results, wake, w);
      && (r.Err? ==> (r.error.Raised? || r.error.AwaitingSignal?) && Moved(BranchIds(branches), w, w', false))
      && (r.Err? && r.error.AwaitingSignal? ==> Asks(BranchIds(branches), w'))
      && (r.Ok? ==> Moved(BranchIds(branches), w, w', wake.None? && r.value.1.Some?))
    decreases branches, 3
  {
    hide Exec, Record, LoopFree, MailWorks, Ids;
    if branches != [] {
      var b, rest := branches[0], branches[1..];
      var ids := BranchIds(branches);
      if TaskResult(w.snap, b.id).Some? {
        var results' := results + [(b.id, TaskResult(w.snap, b.id).value)];
        BranchesProceed(env, o, rest, x, results', wake, w);
        var (r, w') := ExecBranches(env, o, rest, x, results', wake, w);
        MovedThen({}, BranchIds(rest), ids, w, w, w', false, r.Ok? && wake.None? && r.value.1.Some?);
      } else {
        ExecProceeds(env, o, b, x, w);
        var (r, w1) := Exec(env, o, b, x, w);
        if r.Ok? {
          RecordMoves(o, b.id, r.value, w1);
          var w2 := Record(o, b.id, r.value, w1).1;
          MovedThen(Ids(b), {}, ids, w, w1, w2, false, false);
          BranchesProceed(env, o, rest, x, results + [(b.id, r.value)], wake, w2);
          var (r', w') := ExecBranches(env, o, rest, x, results + [(b.id, r.value)], wake, w2);
          MovedThen(ids, BranchIds(rest), ids, w, w2, w', false, r'.Ok? && wake.None? && r'.value.1.Some?);
        } else if r.error.Waiting? {
          BranchesProceed(env, o, rest, x, results, Later(wake, r.error.wakeAt), w1);
          var (r', w') := ExecBranches(env, o, rest, x, results, Later(wake, r.error.wakeAt), w1);
          MovedThen(Ids(b), BranchIds(rest), ids, w, w1, w', true, false);
        } else {
          MovedThen({}, Ids(b), ids, w, w, w1, false, false);
        }
      }
    }
  }

  // ----- whole histories -----

  /** The instance has come to an end. */
  predicate IsOver(s: Snapshot) {
    s.state.Completed? || s.state.Errored?
  }

  /** A resume now is not too early: the wake time has passed, or there is mail, or the deadline has passed. */
  predicate Due(o: Oracle, w: World) {
    w.saved.state.InProgress? ==>
      var p := w.saved.state.position;
      && (p.AtDelay? || p.AtFork? ==> p.wakeAt <= o.clock(w.tick + 1))
      && (p.AtSignal? ==>
            || o.mail(w.tick + 1, p.signalName).Delivered?
            || (p.deadline.Some? && p.deadline.value <= o.clock(w.tick + 2)))
  }

  /** The ids with a result, and that of the signal waited for. */
  function Noted(s: Snapshot): set<string> {
    Results(s).Keys +
      if s.state.InProgress? && s.state.position.AtSignal? then {s.state.position.signalId} else {}
  }

  /** The instance has ended, or come further than `done`. */
  ghost predicate Advanced(c: Cont, done: set<string>, w: World) {
    IsOver(w.saved) || (Synced(w) && done <= Noted(w.saved) &&
      exists id :: id in Ids(c) && id !in done && id in Noted(w.saved))
  }

  lemma WalkAdvances(env: Env, o: Oracle, c: Cont, x: Bytes, done: set<string>, w: World)
    requires Calm(o) && MailWorks(o) && LoopFree(c) && Synced(w) && done <= Results(w.snap).Keys
    ensures Advanced(c, done, Walk(env, o, c, x, w).1)
  {
    hide Exec, MailWorks, LoopFree, Ids;
    ExecProceeds(env, o, c, x, w);
    var (r, w1) := Exec(env, o, c, x, w);
    var w2 := Finalize(o, r, w1);
    if r.Err? && r.error.Waiting? {
      assert w2 == w1 && Results(w2.saved) == Results(w1.snap);
      var id :| id in Ids(c) && id !in Results(w.snap) && id in Results(w1.snap);
      assert id in Noted(w2.saved);
    } else if r.Err? && r.error.AwaitingSignal? {
      assert w2 == w1 && w1.snap.state.position.signalId in Noted(w2.saved);
    } else {
      assert IsOver(w2.saved);
    }
  }

  /** A resume that is due either completes the instance at its wait, or may walk on. */
  lemma DueResolves(o: Oracle, w: World)
    requires Calm(o) && MailWorks(o) && Synced(w) && Due(o, w)
    ensures
      var (hold, w1) := ResolveParked(o, w);
      && (hold.Some? ==> IsOver(w1.saved))
      && (hold.None? ==> Synced(w1) && Noted(w.snap) <= Results(w1.snap).Keys)
  {
    var p := w.snap.state.position;
    assert p.AtSignal? ==> o.mail(w.tick + 1, p.signalName).Delivered? || o.mail(w.tick + 1, p.signalName).NoMail?;
  }

  lemma AttemptAdvances(env: Env, o: Oracle, c: Cont, x: Bytes, w: World)
    requires Calm(o) && MailWorks(o) && Honest(env, o) && Supported(c) && Faithful(env, o, c, x, w) && Due(o, w)
    requires w.saved.state.InProgress?
    ensures Advanced(c, Noted(w.saved), Attempt(env, o, c, w).1)
  {
    var w1 := w.(snap := w.saved);
    SupportedLoopFree(c, true);
    DueResolves(o, w1);
    ResolveFaithful(env, o, c, x, w1);
    hide Agree, Eval, Demand, Owned, ResolveParked, Exec, Walk, Distinct, Resumable, RootSafe, MailWorks, Calm,
      PositionGood;
    var (hold, w2) := ResolveParked(o, w1);
    if hold.None? {
      ResumeWalk(env, o, c, x, w2);
      WalkAdvances(env, o, c, ResumeInput(w2.snap).value, Noted(w.saved), w2);
    }
  }

  /** `n` resumes in a row. */
  function Resumes(n: nat): seq<Action> {
    seq(n, _ => Resume)
  }

  /** Every one of the first `n` resumes is due. */
  ghost predicate AllDue(env: Env, o: Oracle, c: Cont, x: Bytes, n: nat) {
    forall k :: 0 <= k < n ==> Due(o, History(env, o, c, x, Resumes(k)))
  }

  /** After `n` due resumes the instance has ended, or come to more than `n` nodes. */
  lemma {:induction false} ResumesAdvance(env: Env, o: Oracle, c: Cont, x: Bytes, n: nat)
    requires Calm(o) && MailWorks(o) && Honest(env, o) && Supported(c) && AllDue(env, o, c, x, n)
    ensures
      var w := History(env, o, c, x, Resumes(n));
      IsOver(w.saved) || (Synced(w) && |Ids(c) * Noted(w.saved)| > n)
    decreases n
  {
    hide Supported, Walk, Attempt, Ids, Due, Calm, MailWorks, Honest;
    if n == 0 {
      SupportedFree(c);
      WalkAdvances(env, o, c, x, {}, Created(c, x));
      assert Resumes(0) == [];
      MoreNoted(c, {}, History(env, o, c, x, []));
    } else {
      var m := n - 1;
      ResumesAdvance(env, o, c, x, m);
      assert Resumes(n)[..m] == Resumes(m) && Resumes(n)[m] == Resume;
      var w := History(env, o, c, x, Resumes(m));
      var w' := History(env, o, c, x, Resumes(n));
      assert w' == Attempt(env, o, c, w).1;
      hide History;
      if IsOver(w.saved) {
        OverStays(env, o, c, w);
      } else {
        HistoryFaithful(env, o, c, x, Resumes(m));
        assert Due(o, w);
        AttemptAdvances(env, o, c, x, w);
        MoreNoted(c, Noted(w.saved), w');
      }
    }
  }

  lemma SupportedFree(c: Cont)
    requires Supported(c)
    ensures LoopFree(c)
  {
    SupportedLoopFree(c, true);
  }

  lemma OverStays(env: Env, o: Oracle, c: Cont, w: World)
    requires IsOver(w.saved)
    ensures IsOver(Attempt(env, o, c, w).1.saved)
  {
  }

  lemma MoreNoted(c: Cont, done: set<string>, w: World)
    requires Advanced(c, done, w)
    ensures IsOver(w.saved) || |Ids(c) * Noted(w.saved)| > |Ids(c) * done|
  {
    if !IsOver(w.saved) {
      var a, b := Ids(c) * done, Ids(c) * Noted(w.saved);
      var id :| id in Ids(c) && id !in done && id in Noted(w.saved);
      assert a <= b - {id};
      Subset(a, b - {id});
    }
  }

  lemma {:induction false} Subset(a: set<string>, b: set<string>)
    requires a <= b
    ensures |a| <= |b|
    decreases |a|
  {
    if a != {} {
      var k :| k in a;
      Subset(a - {k}, b - {k});
    }
  }

  /**
   Progress. With a backend that works, an instance of a supported tree has ended after as many due resumes as
   the tree has ids: with the result of the semantics if there is one, and as failed if there is none. A
   signal wait needs no mail once its deadline has passed.
   */
  lemma InstancesEnd(env: Env, o: Oracle, c: Cont, x: Bytes, n: nat)
    requires Calm(o) && MailWorks(o) && Honest(env, o) && Supported(c) && n >= |Ids(c)| && AllDue(env, o, c, x, n)
    ensures
      var w := History(env, o, c, x, Resumes(n));
      var r := Eval(env, ByNodeId, Answers(w), c, x).out;
      if r.Done? then w.saved.state == Completed(r.value) else w.saved.state.Errored?
  {
    ResumesAdvance(env, o, c, x, n);
    CrashResumeRefinement(env, o, c, x, Resumes(n));
    var w := History(env, o, c, x, Resumes(n));
    assert Reliable(o);
    hide History, Eval, Demand, Agree, Supported, Answers, AllDue, Ids;
    Subset(Ids(c) * Noted(w.saved), Ids(c));
  }
}
