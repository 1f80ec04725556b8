/**
 The durable executor: it walks the tree from the root, reuses recorded results, and saves the
 snapshot after every piece of work. Everything the environment decides is in an `Oracle`; a crash
 is an error that unwinds the walk without running any more code.
 */
module Durable {
  import opened Prelude
  import opened Continuation
  import opened Semantics
  import opened Snapshots

  /** Why a walk stopped short of a result. */
  datatype Stop =
    | Waiting(wakeAt: int)
    | AwaitingSignal(signalId: string, signalName: string, deadline: Option<int>)
    | CancelledByUser
    | PausedByUser
    | BackendFailure
    | Raised(error: Error)
    | Crash

  /** The answer of the cancel and pause checks. */
  datatype Verdict = Pass | CancelRequested | PauseRequested | GuardFails | GuardCrashes

  /** What becomes of a save: it may be refused, or the process may die, before or after the write. */
  datatype SaveFate = Works | RefusedBefore | RefusedAfter | DiesBefore | DiesAfter

  /** What becomes of a task call: the process may die before the task runs, or before its result is seen. */
  datatype CallFate = Returns | LostBefore | LostAfter

  datatype Mail = Delivered(payload: Bytes) | NoMail | MailFails | MailCrashes

  /** All decisions of the environment, indexed by a step counter; `clock` reads the time. */
  datatype Oracle = Oracle(
    guard: nat -> Verdict,
    save: nat -> SaveFate,
    call: nat -> CallFate,
    mail: (nat, string) -> Mail,
    clock: nat -> int)

  /** Only admitted payloads are delivered. */
  ghost predicate Honest(env: Env, o: Oracle) {
    forall t, name :: o.mail(t, name).Delivered? ==> env.admits(name, o.mail(t, name).payload)
  }

  /** The observable history: foreign calls (of tasks or key functions) and successful writes. */
  datatype Event = Called(id: string, input: Bytes, keyFn: bool, at: int) | Saved(snapshot: Snapshot)

  /** The snapshot in memory, the one in the store, and what has happened so far. */
  datatype World = World(snap: Snapshot, saved: Snapshot, tick: nat, trace: seq<Event>)

  type ExecResult = Result<Bytes, Stop>

  // ----- primitive operations -----

  function Store(w: World, s: Snapshot): World {
    w.(saved := s, trace := w.trace + [Saved(s)])
  }

  /** A pending cancel or pause request is applied to the stored snapshot, if that is in progress. */
  function Guard(o: Oracle, scope: Option<string>, w: World): (Option<Stop>, World) {
    var w' := w.(tick := w.tick + 1);
    match o.guard(w.tick)
    case Pass => (None, w')
    case CancelRequested =>
      if w.saved.state.InProgress? then (Some(CancelledByUser), Store(w', MarkCancelled(w.saved, scope)))
        else (None, w')
    case PauseRequested =>
      if w.saved.state.InProgress? then (Some(PausedByUser), Store(w', MarkPaused(w.saved))) else (None, w')
    case GuardFails => (Some(BackendFailure), w')
    case GuardCrashes => (Some(Crash), w')
  }

  function Checkpoint(o: Oracle, w: World): (Option<Stop>, World) {
    var w' := w.(tick := w.tick + 1);
    match o.save(w.tick)
    case Works => (None, Store(w', w.snap))
    case RefusedBefore => (Some(BackendFailure), w')
    case RefusedAfter => (Some(BackendFailure), Store(w', w.snap))
    case DiesBefore => (Some(Crash), w')
    case DiesAfter => (Some(Crash), Store(w', w.snap))
  }

  function CallTask(env: Env, o: Oracle, id: string, x: Bytes, keyFn: bool, w: World): (ExecResult, World) {
    var w0 := w.(tick := w.tick + 1);
    if o.call(w.tick).LostBefore? then (Err(Crash), w0) else
    var w1 := w0.(trace := w.trace + [Called(id, x, keyFn, o.clock(w.tick))]);
    if o.call(w.tick).LostAfter? then (Err(Crash), w1) else
    match env.task(id, x)
    case Ok(v) => (Ok(v), w1)
    case Err(e) => (Err(Raised(e)), w1)
  }

  function Mark(w: World, id: string, v: Bytes): World {
    w.(snap := MarkTaskCompleted(w.snap, id, v))
  }

  function MoveTo(w: World, p: Position): World {
    w.(snap := UpdatePosition(w.snap, p))
  }

  /** Durations beyond the range of the time library count as zero. */
  function Span(d: nat): nat {
    if d <= 0x7FFF_FFFF_FFFF_FFFF * 1_000_000 then d else 0
  }

  /** The id recorded for whatever follows `c`. */
  function SuccessorId(c: Cont): Option<string> {
    if Next(c).Some? then Some(FirstTaskId(Next(c).value)) else None
  }

  /** All node ids of a tree. */
  function Ids(c: Cont): set<string>
    decreases c, 1
  {
    NodeIds(c) + if Next(c).Some? then Ids(Next(c).value) else {}
  }

  /** The ids of a node and of everything nested in it, without its successors. */
  function NodeIds(c: Cont): set<string>
    decreases c, 0
  {
    {c.id} +
    match c
    case Fork(_, branches, _) => BranchIds(branches)
    case Branch(_, _, routes, default, _) =>
      (set k, i | k in routes && i in Ids(routes[k]) :: i) + if default.Some? then Ids(default.value) else {}
    case Loop(_, body, _, _, _) => Ids(body)
    case ChildWorkflow(_, child, _) => Ids(child)
    case _ => {}
  }

  function BranchIds(branches: seq<Cont>): set<string>
    decreases branches, 2
  {
    if branches == [] then {} else Ids(branches[0]) + BranchIds(branches[1..])
  }

  // ----- the walk -----

  /** Runs the chain starting at `c`. */
  function Exec(env: Env, o: Oracle, c: Cont, x: Bytes, w: World): (ExecResult, World)
    decreases c, 2
  {
    var (r, w1) := ExecNode(env, o, c, x, w);
    if r.Ok? && Next(c).Some? then Exec(env, o, Next(c).value, r.value, w1) else (r, w1)
  }

  function ExecNode(env: Env, o: Oracle, c: Cont, x: Bytes, w: World): (ExecResult, World)
    decreases c, 1
  {
    match c
    case Task(_, _, _, _) => ExecTask(env, o, c, x, w)
    case Delay(_, _, _) => ExecDelay(o, c, x, w)
    case AwaitSignal(_, _, _, _) => ExecSignal(o, c, w)
    case Fork(_, branches, _) =>
      var (g, w1) := Guard(o, None, w);
      if g.Some? then (Err(g.value), w1) else
      var (r, w2) := ExecBranches(env, o, branches, x, [], None, w1);
      if r.Err? then (Err(r.error), w2) else
      FinishFork(env, o, c, r.value.0, r.value.1, w2)
    case Branch(id, _, _, _, _) =>
      var (g, w1) := Guard(o, Some(id), w);
      if g.Some? then (Err(g.value), w1) else
      if TaskResult(w1.snap, id).Some? then (Ok(TaskResult(w1.snap, id).value), w1) else
      var (k, w2) := CallTask(env, o, KeyFnId(id), x, true, w1);
      if k.Err? then (k, w2) else
      var chosen := Choose(env, c, k.value);
      if chosen.Err? then (Err(Raised(chosen.error)), w2) else
      var (r, w3) := Exec(env, o, chosen.value.1, x, w2);
      FinishBranch(env, o, id, chosen.value.0, r, w3)
    case Loop(id, _, _, _, _) =>
      var (g, w1) := Guard(o, Some(id), w);
      if g.Some? then (Err(g.value), w1) else
      if TaskResult(w1.snap, id).Some? then (Ok(TaskResult(w1.snap, id).value), w1) else
      ExecLoop(env, o, c, LoopIteration(w1.snap, id), x, w1)
    case ChildWorkflow(id, child, _) =>
      var (g, w1) := Guard(o, Some(id), w);
      if g.Some? then (Err(g.value), w1) else
      if TaskResult(w1.snap, id).Some? then (Ok(TaskResult(w1.snap, id).value), w1) else
      var (r, w2) := Exec(env, o, child, x, w1);
      if r.Err? then (r, w2) else Record(o, id, r.value, w2)
  }

  /** Wraps a route's result and records it for the branch node. */
  function FinishBranch(env: Env, o: Oracle, id: string, key: string, r: ExecResult, w: World): (ExecResult, World) {
    if r.Err? then (r, w) else
    match env.encodeEnvelope(key, r.value)
    case Ok(v) => Record(o, id, v, w)
    case Err(e) => (Err(Raised(e)), w)
  }

  /** Marks a node completed and saves. */
  function Record(o: Oracle, id: string, v: Bytes, w: World): (ExecResult, World) {
    var (s, w1) := Checkpoint(o, Mark(w, id, v));
    if s.Some? then (Err(s.value), w1) else (Ok(v), w1)
  }

  /** Marks a node completed, moves on to its successor and saves. */
  function RecordStep(o: Oracle, c: Cont, v: Bytes, w: World): (ExecResult, World) {
    var w1 := Mark(w, c.id, v);
    var w2 := if Next(c).Some? then MoveTo(w1, AtTask(FirstTaskId(Next(c).value))) else w1;
    var (s, w3) := Checkpoint(o, w2);
    if s.Some? then (Err(s.value), w3) else (Ok(v), w3)
  }

  function ExecTask(env: Env, o: Oracle, c: Cont, x: Bytes, w: World): (ExecResult, World)
    requires c.Task?
  {
    var (g, w1) := Guard(o, Some(c.id), w);
    if g.Some? then (Err(g.value), w1) else
    if TaskResult(w1.snap, c.id).Some? then (Ok(TaskResult(w1.snap, c.id).value), w1) else
    var (v, w2) := CallTask(env, o, c.id, x, false, w1);
    if v.Err? then (v, w2) else
    var (r, w3) := RecordStep(o, c, v.value, w2);
    if r.Err? then (r, w3) else
    var (g', w4) := Guard(o, None, w3);
    if g'.Some? then (Err(g'.value), w4) else (r, w4)
  }

  /** The first visit parks; a recorded delay passes its input through. */
  function ExecDelay(o: Oracle, c: Cont, x: Bytes, w: World): (ExecResult, World)
    requires c.Delay?
  {
    var (g, w1) := Guard(o, Some(c.id), w);
    if g.Some? then (Err(g.value), w1) else
    if TaskResult(w1.snap, c.id).Some? then (Ok(x), w1) else
    ParkAtDelay(o, c, x, w1)
  }

  function ParkAtDelay(o: Oracle, c: Cont, x: Bytes, w: World): (ExecResult, World)
    requires c.Delay?
  {
    var now := o.clock(w.tick);
    var wakeAt := now + Span(c.duration);
    var (s, w1) := Checkpoint(o, Mark(MoveTo(w, AtDelay(c.id, now, wakeAt, SuccessorId(c))), c.id, x));
    (Err(if s.Some? then s.value else Waiting(wakeAt)), w1)
  }

  function ExecSignal(o: Oracle, c: Cont, w: World): (ExecResult, World)
    requires c.AwaitSignal?
  {
    var (g, w1) := Guard(o, Some(c.id), w);
    if g.Some? then (Err(g.value), w1) else
    if TaskResult(w1.snap, c.id).Some? then (Ok(TaskResult(w1.snap, c.id).value), w1) else
    var w2 := w1.(tick := w1.tick + 1);
    match o.mail(w1.tick, c.signalName)
    case Delivered(payload) => RecordStep(o, c, payload, w2)
    case NoMail => ParkAtSignal(o, c, w2)
    case MailFails => (Err(BackendFailure), w2)
    case MailCrashes => (Err(Crash), w2)
  }

  function ParkAtSignal(o: Oracle, c: Cont, w: World): (ExecResult, World)
    requires c.AwaitSignal?
  {
    var deadline := if c.timeout.Some? then Some(o.clock(w.tick) + Span(c.timeout.value)) else None;
    var (s, w1) := Checkpoint(o, MoveTo(w, AtSignal(c.id, c.signalName, deadline, SuccessorId(c))));
    (Err(if s.Some? then s.value else AwaitingSignal(c.id, c.signalName, deadline)), w1)
  }

  /** The remaining branches of a fork; a waiting branch does not keep the later ones from running. */
  function ExecBranches(env: Env, o: Oracle, branches: seq<Cont>, x: Bytes, results: seq<(string, Bytes)>,
                        wake: Option<int>, w: World): (Result<(seq<(string, Bytes)>, Option<int>), Stop>, World)
    decreases branches, 3
  {
    if branches == [] then (Ok((results, wake)), w) else
    var b := branches[0];
    if TaskResult(w.snap, b.id).Some? then
      ExecBranches(env, o, branches[1..], x, results + [(b.id, TaskResult(w.snap, b.id).value)], wake, w)
    else
      var (r, w1) := Exec(env, o, b, x, w);
      if r.Ok? then
        var (s, w2) := Record(o, b.id, r.value, w1);
        if s.Err? then (Err(s.error), w2) else
        ExecBranches(env, o, branches[1..], x, results + [(b.id, r.value)], wake, w2)
      else if r.error.Waiting? then
        ExecBranches(env, o, branches[1..], x, results, Later(wake, r.error.wakeAt), w1)
      else
        (Err(r.error), w1)
  }

  function Later(wake: Option<int>, t: int): Option<int> {
    Some(if wake.Some? && wake.value > t then wake.value else t)
  }

  /** With a branch still waiting the fork parks; otherwise its results are joined. */
  function FinishFork(
      env: Env, o: Oracle, c: Cont, results: seq<(string, Bytes)>, wake: Option<int>, w: World): (ExecResult, World)
    requires c.Fork?
  {
    if wake.Some? then
      var (s, w1) := Checkpoint(o, MoveTo(w, AtFork(c.id, ToMap(results), wake.value)));
      (Err(if s.Some? then s.value else Waiting(wake.value)), w1)
    else
      match env.encodeNamed(results)
      case Ok(v) => (Ok(v), w)
      case Err(e) => (Err(Raised(e)), w)
  }

  function ToMap(results: seq<(string, Bytes)>): map<string, Bytes> {
    if results == [] then map[] else
    var n := |results| - 1;
    ToMap(results[..n])[results[n].0 := results[n].1]
  }

  /** Iterations `i`, `i + 1`, ...; the results of the body are dropped after each one. */
  function ExecLoop(env: Env, o: Oracle, c: Cont, i: nat, x: Bytes, w: World): (ExecResult, World)
    requires c.Loop?
    decreases c, 0, c.maxIterations - i
  {
    if i >= c.maxIterations then
      if c.onMax.Fail? then (Err(Raised(MaxIterationsExceeded(c.id, c.maxIterations))), w)
      else Record(o, c.id, x, w.(snap := ClearLoopIteration(w.snap, c.id)))
    else
      var (r, w1) := Exec(env, o, c.body, x, w);
      if r.Err? then (r, w1) else
      var w2 := w1.(snap := RemoveTaskResults(w1.snap, Ids(c.body)));
      var d := env.decodeLoop(r.value);
      if d.Err? then (Err(Raised(d.error)), w2)
      else if d.value.0 == "done" then
        Record(o, c.id, d.value.1, w2.(snap := ClearLoopIteration(w2.snap, c.id)))
      else if d.value.0 == "again" then
        var (s, w3) := NextIteration(o, c, i + 1, w2);
        if s.Some? then (Err(s.value), w3) else
        ExecLoop(env, o, c, i + 1, d.value.1, w3)
      else (Err(Raised(UnknownLoopTag(d.value.0))), w2)
  }

  /** Saves the iteration count before the loop body runs again. */
  function NextIteration(o: Oracle, c: Cont, i: nat, w: World): (Option<Stop>, World)
    requires c.Loop?
  {
    var snap := UpdatePosition(SetLoopIteration(w.snap, c.id, i), InLoop(c.id, i, Some(FirstTaskId(c.body))));
    Checkpoint(o, w.(snap := snap))
  }
}
