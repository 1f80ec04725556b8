/**
 Runs and resumes of one workflow instance: launch, park resolution, resume input and finalization.
 A history is a launch followed by any sequence of resumes and unpauses, each under the oracle's
 choice of crashes, refused saves, cancel and pause requests, signals and clock readings.
 */
module Lifecycle {
  import opened Prelude
  import opened Continuation
  import opened Semantics
  import opened Snapshots
  import opened Durable

  /** How an attempt to resume ended. */
  datatype Report =
    | DefinitionMismatch | AlreadyOver | NotReady | Halted | ResumeFailed | CompletedAtWait | Ended(result: ExecResult)

  /** The input a resumed walk starts from: the last recorded output, if any. */
  function ResumeInput(s: Snapshot): Option<Bytes> {
    if !s.state.InProgress? then None
    else if s.state.completed == map[] then s.initialInput
    else LastTaskOutput(s)
  }

  /** Saves a snapshot on behalf of a resume; `None` means the resume may go on. */
  function SaveOrFail(o: Oracle, w: World): (Option<Report>, World) {
    var (s, w1) := Checkpoint(o, w);
    (if s.Some? then Some(ResumeFailed) else None, w1)
  }

  /** Ends the workflow from a wait that nothing follows. */
  function CompleteAtWait(o: Oracle, output: Bytes, w: World): (Option<Report>, World) {
    var (f, w1) := SaveOrFail(o, w.(snap := MarkCompleted(w.snap, output)));
    (Some(if f.Some? then f.value else CompletedAtWait), w1)
  }

  /** The wait at a signal is over: record the payload and move on, or end the workflow. */
  function AnswerSignal(o: Oracle, p: Position, payload: Bytes, w: World): (Option<Report>, World)
    requires p.AtSignal?
  {
    var w1 := Mark(w, p.signalId, payload);
    if p.nextTaskId.Some? then SaveOrFail(o, MoveTo(w1, AtTask(p.nextTaskId.value)))
    else CompleteAtWait(o, payload, w1)
  }

  /** Resolves a parked position of the loaded snapshot; `None` means the walk may start. */
  function ResolveParked(o: Oracle, w: World): (Option<Report>, World)
    requires w.snap.state.InProgress?
  {
    var p := w.snap.state.position;
    match p
    case AtDelay(delayId, _, wakeAt, next) =>
      var (g, w1) := Guard(o, Some(delayId), w);
      if g.Some? then (Some(Halted), w1)
      else if o.clock(w1.tick) < wakeAt then (Some(NotReady), w1)
      else if next.Some? then SaveOrFail(o, MoveTo(w1, AtTask(next.value)))
      else
        var output := TaskResult(w1.snap, delayId);
        CompleteAtWait(o, if output.Some? then output.value else [], w1)
    case AtFork(forkId, _, wakeAt) =>
      var (g, w1) := Guard(o, Some(forkId), w);
      if g.Some? then (Some(Halted), w1)
      else if o.clock(w1.tick) < wakeAt then (Some(NotReady), w1)
      else SaveOrFail(o, w1)
    case AtSignal(signalId, signalName, deadline, _) =>
      var (g, w1) := Guard(o, Some(signalId), w);
      if g.Some? then (Some(Halted), w1) else
      var w2 := w1.(tick := w1.tick + 1);
      (match o.mail(w1.tick, signalName)
       case Delivered(payload) => AnswerSignal(o, p, payload, w2)
       case NoMail =>
         if deadline.Some? && o.clock(w2.tick) >= deadline.value then AnswerSignal(o, p, [], w2)
         else (Some(NotReady), w2)
       case MailFails => (Some(ResumeFailed), w2)
       case MailCrashes => (Some(Halted), w2))
    case _ => (None, w)
  }

  /** Stores the outcome of a walk. Parks, halts and crashes leave the store as it is. */
  function Finalize(o: Oracle, r: ExecResult, w: World): World {
    match r
    case Ok(output) => Checkpoint(o, w.(snap := MarkCompleted(w.snap, output))).1
    case Err(stop) =>
      if stop.BackendFailure? || stop.Raised? then Checkpoint(o, w.(snap := MarkFailed(w.snap))).1 else w
  }

  /** The walk of an attempt, and its finalization. */
  function Walk(env: Env, o: Oracle, c: Cont, x: Bytes, w: World): (ExecResult, World) {
    var (r, w1) := Exec(env, o, c, x, w);
    (r, Finalize(o, r, w1))
  }

  /** Loads the stored snapshot and resumes it. */
  function Attempt(env: Env, o: Oracle, c: Cont, w: World): (Report, World) {
    var w1 := w.(snap := w.saved);
    if !w1.snap.state.InProgress? then (AlreadyOver, w1) else
    var (hold, w2) := ResolveParked(o, w1);
    if hold.Some? then (hold.value, w2) else
    var x := ResumeInput(w2.snap);
    if x.None? then (ResumeFailed, w2) else
    var (r, w3) := Walk(env, o, c, x.value, w2);
    (Ended(r), w3)
  }

  /** The world in which a fresh instance has been stored. */
  function Created(c: Cont, x: Bytes): World {
    var s := Fresh(x, FirstTaskId(c));
    World(s, s, 0, [Saved(s)])
  }

  datatype Action = Resume | Unpause

  function Perform(env: Env, o: Oracle, c: Cont, a: Action, w: World): World {
    match a
    case Resume => Attempt(env, o, c, w).1
    case Unpause =>
      if w.saved.state.Paused? then Checkpoint(o, w.(snap := MarkUnpaused(w.saved))).1 else w
  }

  /** The launch on input `x`, followed by the actions. */
  function History(env: Env, o: Oracle, c: Cont, x: Bytes, actions: seq<Action>): World {
    if actions == [] then Walk(env, o, c, x, Created(c, x)).1 else
    var n := |actions| - 1;
    Perform(env, o, c, actions[n], History(env, o, c, x, actions[..n]))
  }
}
